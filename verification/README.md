# Models of zgrab's protocol engines

This project models, in Dafny 4.11, the parts of the zgrab fork that keep the most state, and proves what they
promise:

- the HTTP/2 server: the flow-control windows, the queues that split DATA, the priority tree and its scheduler, the
  random scheduler, the loop that schedules one frame at a time, the stream registry, the inbound body, the framer
  and the splitting and reassembling of header blocks;
- HTTP/1: the idle connections of a transport, the chunked transfer coding and the body around it;
- SSH: packets under three kinds of cipher, the windows of a channel, its receive buffer, the options of a certificate;
- the scan pipeline: one reader, some workers, one writer and the counter of results.

What works by changing objects in place is modelled by classes with the same fields and methods; each method is
proved against functions of its state, and what the design promises is proved about those. Runs are
loops over arbitrary sequences of calls or events, or, for the goroutines of the pipeline, sequences of interleaved
steps. Integer widths matter in several places and are written out (`GoInt`).

`dafny verify dfyconfig.toml` checks everything. Modules follow the components: `FlowControl`, `WriteQueues`,
`Forest` (parent maps alone), `PriorityNodes`, `PriorityTrees`, `PriorityWalks`, `PriorityScheduling`, `PriorityIndexes`
(what the scheduler knows of its streams, as a value), `PriorityRuns`, `RandomScheduling`, `ServerStates`, `ServerSteps`,
`ServerReceives`, `ServerQuiet` and `ServerSettings` (the state of a server connection, its steps, its receive windows,
scheduling when nothing else can be sent, and SETTINGS, as values), `ServerConns` (the class), `ServerPanics` and
`ServerCredits` (states and runs that end in a panic), `FixedBuffers`, `BodyFlows`, `Frames`, `Framers`, `HeaderBlocks`,
`HeaderLists`, `IdleConns`, `Chunks`, `ChunkedBodies`, `SshPackets`, `SshStreamCipher`, `SshGcmCipher`,
`SshCbcCipher`, `SshBuffers`, `SshChannels`, `CertTuples`, `Pipelines`.

## Model

| member | source | states |
|---|---|---|
| FlowControl.Flow.Available | ztools/http/h2_bundle.go:536-542 | never more than the stream's own window nor than the connection's |
| FlowControl.Flow.Take | ztools/http/h2_bundle.go:544-552 | both windows shrink by exactly what is taken, for every amount that is available; anything more is a panic |
| FlowControl.Flow.Add | ztools/http/h2_bundle.go:556-563 | the int32 test as written decides, and the window becomes the wrapped sum or stays |
| FlowControl.AcceptsNonNegative | ztools/http/h2_bundle.go:556-563 | on a window that is not negative an increment is accepted iff the sum is at most 2^31-1, and the sum is exact |
| FlowControl.AcceptsNegative | ztools/http/h2_bundle.go:556-563 | a negative window accepts an increment iff the sum falls below the range of int32, which then wraps |
| FlowControl.AcceptsIffRule | ztools/http/h2_bundle.go:556-563 | for all windows and increments whose sum does not fall below int32: the test agrees with section 6.9.1 of RFC 7540 iff the window is not negative or the sum is too large anyway |
| FlowControl.NegativeWindowRefuses | ztools/http/h2_bundle.go:556-563 | the input at which it does not: window -1, increment 1 |
| WriteQueues.ConsumeRequest | ztools/http/h2_bundle.go:7807-7852 | nothing comes out iff flow control blocks the request; otherwise all of it or its first allowed octets, the windows shrink by exactly these, and END_STREAM and the notice to the writer stay with the rest |
| WriteQueues.SplitTrace | ztools/http/h2_bundle.go:7825-7847 | a split delivers, item by item, what the whole frame would have: octets in order, then END_STREAM, then the notice |
| WriteQueues.WriteQueue.Push | ztools/http/h2_bundle.go:7886-7888 | appends, and what was pushed remains what was popped followed by what is queued |
| WriteQueues.WriteQueue.Shift | ztools/http/h2_bundle.go:7890-7900 | takes the first request, conserving what was pushed |
| WriteQueues.WriteQueue.Consume | ztools/http/h2_bundle.go:7906-7920 | fails iff the queue is empty or its head blocked and then changes nothing; otherwise delivers the head or its allowed part, conserving what was pushed |
| WriteQueues.CreditBy | ztools/http/h2_bundle.go:7815-7824 | readiness and allowance of a queue depend on its head and on the recorded windows and frame sizes alone |
| Forest.Promote | ztools/http/h2_bundle.go:8266-8271 | hanging p from the old parent of n when n is above p keeps all chains finite, puts n off the chain of p, and keeps everybody connected |
| Forest.Graft | ztools/http/h2_bundle.go:8273-8284 | letting n adopt any kids of p and hang below p keeps all chains finite and everybody connected, though a cycle exists before the last step |
| Forest.AdjustedAcyclic | ztools/http/h2_bundle.go:8262-8284 | every change of dependency, exclusive or not, of any two different nodes, keeps every chain of parents finite |
| Forest.AdjustedReach | ztools/http/h2_bundle.go:8262-8284 | and keeps every node connected to the root |
| Forest.DrainReaches | ztools/http/h2_bundle.go:8344-8350 | moving all kids of a removed node to its parent, as intended, keeps whoever reached the root connected to it |
| PriorityNodes.SetParent | ztools/http/h2_bundle.go:8041-8072 | in place, from any well-formed sibling lists: n moves to the front of the list of the new parent, or out of the tree, and all other links stay |
| PriorityNodes.ReparentLinked | ztools/http/h2_bundle.go:8041-8072 | every such move leaves all sibling lists well-formed doubly linked lists, each node in the list of its own parent only |
| PriorityNodes.ReparentParents | ztools/http/h2_bundle.go:8041-8072 | and changes the parent relation at n only |
| PriorityTrees.MoveFirstKid | ztools/http/h2_bundle.go:8344-8347 | the loop of removeNode, as written, ends and moves exactly the first kid |
| PriorityTrees.RemovedDrains | ztools/http/h2_bundle.go:8344-8350 | with at most one kid the removal as written is the removal intended |
| PriorityTrees.RemovedTreeIff | ztools/http/h2_bundle.go:8344-8350 | a tree without the removed node is left iff the node had at most one kid |
| PriorityTrees.OrphanBreaksTree | ztools/http/h2_bundle.go:8344-8350 | a known node below a node that is no longer attached is not part of the tree |
| PriorityTrees.Extract | ztools/http/h2_bundle.go:8344-8350 | in place: a forest stays a forest; a tree stays a tree iff the node had at most one kid; otherwise the second kid hangs from the removed node |
| PriorityTrees.IsAbove | ztools/http/h2_bundle.go:8266-8271 | the walk up from p meets n iff n is above p |
| PriorityTrees.AdoptKids | ztools/http/h2_bundle.go:8273-8282 | all kids of p but n move below n, even while that closes a cycle |
| PriorityTrees.Depend | ztools/http/h2_bundle.go:8262-8284 | in place: the parents afterwards are those section 5.3.3 of RFC 7540 asks for, and a forest stays a forest |
| PriorityTrees.AdjustedTree | ztools/http/h2_bundle.go:8262-8284 | a tree rooted at stream 0 stays one under any change of dependency |
| PriorityTrees.AddBytes | ztools/http/h2_bundle.go:8074-8079 | the node and exactly the nodes above it account for the bytes |
| PriorityTrees.Sprout | ztools/http/h2_bundle.go:8191-8202 | a new node below p keeps the forest, and the tree when p is in it |
| PriorityWalks.NeedSort | ztools/http/h2_bundle.go:8099-8106 | true iff two kids differ in weight |
| PriorityWalks.SortKids | ztools/http/h2_bundle.go:8116-8124 | taking all kids off and putting them back leaves the parent relation as it was, and the kids in the order the sort chose |
| PriorityWalks.Visit | ztools/http/h2_bundle.go:8305-8315 | takes a request iff the queue of the node has one that may be sent; otherwise nothing changes |
| PriorityWalks.Walk | ztools/http/h2_bundle.go:8087-8131 | for every order of siblings: ends; changes no parent; fails iff nothing at or below n can be sent, and then changes nothing; otherwise serves exactly one node, below n, with nothing ready between it and n |
| PriorityScheduling.PriorityWriteScheduler.constructor | ztools/http/h2_bundle.go:7991-8014 | the new scheduler is a tree of the root alone and ready for any calls |
| PriorityScheduling.PriorityWriteScheduler.RemoveNode | ztools/http/h2_bundle.go:8344-8350 | the id is forgotten; index and forest stay consistent; the tree is kept iff the node had at most one kid |
| PriorityScheduling.PriorityWriteScheduler.AddClosedOrIdleNode | ztools/http/h2_bundle.go:8330-8342 | retains the node, evicting the oldest one exactly when the list is full, with the consequences of removing that one |
| PriorityScheduling.PriorityWriteScheduler.OpenStream | ztools/http/h2_bundle.go:8181-8206 | a new node below its pusher or the root, or the idle node reused, which stays in the list of idle nodes; queues stay servable; a tree always stays a tree, and the retained nodes keep their ids iff none of another stream has this one |
| PriorityScheduling.PriorityWriteScheduler.CloseStream | ztools/http/h2_bundle.go:8208-8231 | the queue is emptied, the node retained or removed; a tree stays a tree iff what is evicted has at most one kid |
| PriorityScheduling.PriorityWriteScheduler.AdjustStream | ztools/http/h2_bundle.go:8233-8286 | known or new stream: exactly the dependency and the weight asked for, or nothing for an old unknown one; a new one is idle and joins the idle list, and if that is full exactly the oldest of the list is forgotten; a tree stays a tree iff nothing with several kids is evicted |
| PriorityScheduling.PriorityWriteScheduler.AdjustNew | ztools/http/h2_bundle.go:8238-8286 | for a stream not seen before: remembered as idle below the root, with the eviction that makes room, then the dependency and the weight asked for |
| PriorityScheduling.PriorityWriteScheduler.Push | ztools/http/h2_bundle.go:8288-8303 | the request joins exactly the queue of its stream, or of the root |
| PriorityScheduling.PriorityWriteScheduler.Pop | ztools/http/h2_bundle.go:8305-8328 | leaves all parents; succeeds iff something reachable from the root can be sent; takes one request from one queue, within both windows, the frame size and the throttle; whatever is strictly above the node served is empty or blocked |
| PriorityScheduling.PriorityWriteScheduler.Throttle | ztools/http/h2_bundle.go:8317-8324 | the limit stays positive, grows by 1024 up to 2^31-1 without wrapping, or is set back |
| PriorityScheduling.TwoDependants | ztools/http/h2_bundle.go:8181-8206 | a tree in which stream 1 has the dependants 3 and 5 |
| PriorityScheduling.ClosingLosesADependant | ztools/http/h2_bundle.go:8208-8231 | closing stream 1 then leaves a known stream outside the tree |
| PriorityRuns.Step | ztools/http/h2_bundle.go:8181-8328 | any call panics iff the code's own guards say so, changing nothing; otherwise index, forest, queues and throttle stay good, what is known of the streams moves by exactly PriorityIndexes.Next, and tree and ids of retained nodes are kept iff the call removes no node with several kids and takes no retained node's id |
| PriorityRuns.RoomKeepsTree | ztools/http/h2_bundle.go:8330-8342 | as long as the lists of retained nodes have room, every call keeps the tree |
| PriorityRuns.Run | ztools/http/h2_bundle.go:8181-8350 | every run, up to a call that panics, keeps index, forest, servable queues that conserve what was pushed, and the throttle; a run with room for all it retains keeps the tree; a caller that opens and closes each of its streams once meets a panic iff some call evicts a stream that is open from the idle list |
| PriorityRuns.OpenOneEvicted | ztools/http/h2_bundle.go:8181-8342 | a run with room for one idle stream: stream 3 is remembered, opened and evicted, and closing it would panic |
| PriorityIndexes.ForgetsIff | ztools/http/h2_bundle.go:8208-8342 | for all states and calls: the call makes the scheduler forget an open stream, other than the one it closes, iff it evicts an entry whose stream is open |
| PriorityIndexes.RefusesIff | ztools/http/h2_bundle.go:8181-8303 | a caller that opens and closes each stream at most once is refused iff its call closes, or sends DATA on, an open stream that has been forgotten |
| PriorityIndexes.Forgetting | ztools/http/h2_bundle.go:8208-8342 | such a caller's call forgets exactly the open stream that it evicts, which is the oldest of a full idle list; and what is forgotten is not remembered again |
| PriorityIndexes.PassesIff | ztools/http/h2_bundle.go:8181-8342 | for all its runs that close what they open: no call panics iff no call evicts an open stream |
| PriorityIndexes.OpenOneForgotten | ztools/http/h2_bundle.go:8233-8256 | a run of four calls that loses an open stream and ends in a panic |
| RandomScheduling.RandomWriteScheduler.Push | ztools/http/h2_bundle.go:8389-8401 | the request joins the queue of its stream; every other stream's queue is as it was |
| RandomScheduling.RandomWriteScheduler.Pop | ztools/http/h2_bundle.go:8403-8415 | succeeds iff a control frame is queued or some stream can send; takes one request from one queue, control frames first, conserving all queues |
| RandomScheduling.RandomWriteScheduler.CloseStream | ztools/http/h2_bundle.go:8376-8383 | the stream's queue and history are gone, and no other stream's |
| RandomScheduling.RandomWriteScheduler.Get | ztools/http/h2_bundle.go:7934-7944 | an empty queue that no stream uses |
| ServerStates.ClosedForever | ztools/http/h2_bundle.go:3316-3333 | between any two states of a run, a stream that was closed is reported closed |
| ServerStates.NeverIdleAgain | ztools/http/h2_bundle.go:3316-3333 | and a number that was used or skipped is never reported idle |
| ServerSteps.CountersFit | ztools/http/h2_bundle.go:4382-4408 | the stream counters are far from the top of uint32, so that counting never wraps |
| ServerSteps.WindowEquation | ztools/http/h2_bundle.go:4012-4035 | in every reachable state without a refused SETTINGS, each open stream's window is the current initial size plus the accepted increments minus the DATA sent; the connection's the same from 65535 |
| ServerSteps.ReachableAccepts | ztools/http/h2_bundle.go:556-563 | on a reachable window an increment is accepted iff the window is not negative and the sum is at most 2^31-1, and the sum never wraps |
| ServerConns.ServerConn.constructor | ztools/http/h2_bundle.go:3116-3188 | a new connection satisfies all invariants and has nothing to write |
| ServerConns.ServerConn.WriteFrame | ztools/http/h2_bundle.go:3690-3720 | frames for closed streams and a late 100 are dropped, the others queued; the invariants hold on |
| ServerConns.ServerConn.ScheduleFrameWrite | ztools/http/h2_bundle.go:3826-3862 | ends, though mutually recursive with what writes and finishes frames; when it is not nested, it leaves one write outstanding or nothing to write |
| ServerConns.ServerConn.Turn | ztools/http/h2_bundle.go:3831-3860 | a turn of the loop: GOAWAY, acknowledgement, frame or flush, in this order, each making the remaining work smaller |
| ServerConns.ServerConn.StartFrameWrite | ztools/http/h2_bundle.go:3725-3765 | only with no frame being written; panics iff the frame's stream has closed |
| ServerConns.ServerConn.WroteFrame | ztools/http/h2_bundle.go:3774-3812 | a stream whose last frame was written half closes or closes, and what it had not read goes back to the connection's receive window; nested in the loop it makes the remaining work smaller, otherwise scheduling goes on |
| ServerConns.ServerConn.Pay | ztools/http/h2_bundle.go:7815-7850 | DATA is taken from both windows, which stay at 0 or above |
| ServerConns.ServerConn.CloseStream | ztools/http/h2_bundle.go:4052-4081 | the stream leaves the registry, its queue is dropped, and it stays closed; where nothing else can be sent, exactly its unread bytes are given back to the connection and no other stream is touched; a frame of the closed stream is started only when the window update for these bytes sends it |
| ServerConns.ServerConn.NewStream | ztools/http/h2_bundle.go:4382-4414 | registers the stream with the current initial window, exactly, and counts it for its initiator |
| ServerConns.ServerConn.AllocatePromisedID | ztools/http/h2_bundle.go:5217-5235 | a promise gets the next even number iff push is allowed, the client's limit leaves room and a number below 2^31 is left; otherwise nothing is made |
| ServerConns.ServerConn.ProcessWindowUpdate | ztools/http/h2_bundle.go:4012-4035 | while no SETTINGS was refused, a stream's update is accepted iff its window is not negative and the sum at most 2^31-1; the connection's iff the sum is; on an idle stream it is the connection error PROTOCOL_ERROR, on a closed one nothing |
| ServerConns.ServerConn.ProcessResetStream | ztools/http/h2_bundle.go:4037-4050 | a connection error iff the stream is idle; otherwise it is closed afterwards; on a settled connection no frame of the closed stream is started, and the connection gets back exactly the bytes the stream had not read |
| ServerConns.ServerConn.SendWindowUpdate32 | ztools/http/h2_bundle.go:4705-4730 | the frame is handed over and the window of the stream or of the connection grows by exactly the increment, or refuses it, which is the panic |
| ServerConns.ServerConn.SendWindowUpdate | ztools/http/h2_bundle.go:4689-4703 | an increment of any size is given in legal parts that add up to it |
| ServerConns.ServerConn.NoteBodyRead | ztools/http/h2_bundle.go:4679-4687 | what a handler has read is given to the connection in any case, and to the stream while the client may send on it; the windows stay accounted for |
| ServerReceives.OverIff | ztools/http/h2_bundle.go:4705-4730 | in every good state: the connection's receive window has been refused an increment iff the bytes given back twice exceed 2^31-1 - 65535 + what is buffered or not yet noted + what was lost |
| ServerReceives.NotedSound | ztools/http/h2_bundle.go:4679-4687 | giving back what was read keeps window + held + lost = 65535 + given back twice, and each stream within 65535 |
| ServerReceives.DataBuffered | ztools/http/h2_bundle.go:4147-4210 | and so does buffering DATA, with its padding given back |
| ServerConns.ServerConn.ProcessSettingInitialWindowSize | ztools/http/h2_bundle.go:4132-4145 | succeeds iff every registered window accepts the change, and then every one moves by exactly it, however the map is iterated; all windows share the new base iff it succeeds or changes nothing |
| ServerConns.ServerConn.ProcessSettings | ztools/http/h2_bundle.go:4083-4099 | the settings take effect in order up to the first that the state before and the settings so far refuse; afterwards, if none was, nothing waits that could be sent |
| ServerSettings.SettingApplied | ztools/http/h2_bundle.go:4101-4145 | a setting is refused iff it is bad or, as a new initial size, some registered window would refuse it, which is decided by the state before all settings; windows and sizes are what the settings so far make them |
| ServerSettings.StalledIff | ztools/http/h2_bundle.go:4083-4145 | for all settled states, settings and orders of the windows: after settings that nothing follows up, the connection is settled iff a frame is being written, output is muted, or no queue's first frame is freed by the settings that took effect |
| ServerConns.ServerConn.ProcessHeaders | ztools/http/h2_bundle.go:4257-4333 | even numbers, and odd ones that were used, are connection errors; a new one counts as used, and opens exactly its stream iff the limit allows, the request is accepted and the stream does not depend on itself; panics iff trailers end a request that has no body |
| ServerConns.ServerConn.EndStream | ztools/http/h2_bundle.go:4232-4244 | the remote half closes; panics iff the stream has no body |
| ServerConns.ServerConn.ProcessData | ztools/http/h2_bundle.go:4147-4210 | idle: connection error; closed: the stream's error; otherwise taken iff within the declared length and both receive windows and the buffer takes it, and then windows, buffer and padding are exact; a last frame that is taken closes the remote half |
| ServerConns.ServerConn.ProcessReadFailure | ztools/http/h2_bundle.go:3914-3957 | a frame that cannot be read resets its stream, makes the connection go away, or ends the loop, as the failure says |
| ServerConns.ServerConn.StartPush | ztools/http/h2_bundle.go:5203-5263 | a promise is queued iff push is enabled and the stream that asks is open or half closed by the client |
| ServerConns.ServerConn.ProcessFrameFromReader | ztools/http/h2_bundle.go:3914-3957 | whatever the frame, the invariants hold on and nothing is forgotten; after a SETTINGS refused while going away, the connection is settled iff the settings before the refused one, and the windows moved by then, free no frame |
| ServerConns.ServerConn.Handle | ztools/http/h2_bundle.go:3533-3587 | the same for every event of the serve loop, failed reads included; a panic only where the stated condition holds, or in the connection's receive window, iff what the event and the streams it closes give back exceeds 2^31-1 minus the window; on a settled connection that is a condition on the state before for a body read and for RST_STREAM |
| ServerConns.ServerConn.Serve | ztools/http/h2_bundle.go:3504-3588 | every run over any events: invariants of the registry, windows, queues and the single writer; closed stays closed; numbers grow; settled after each event until a SETTINGS is refused while going away; if it panics, in which state and at which event; and the receive window panics iff more has been given back twice than its range, what is held and what was lost allow |
| ServerPanics.ClosePanicsExactly | ztools/http/h2_bundle.go:4052-4081 | for every state: closing with unread bytes can panic iff the scheduling loop, entered for the window update, comes by its own turns (DrainIsTurn) to a frame of the closed stream |
| ServerPanics.ClosePanicsRun | ztools/http/h2_bundle.go:4052-4081 | from every state that the condition describes, for every stream and number of unread bytes: the methods, with the frames taken in this order, do panic |
| ServerPanics.DrainIsTurn | ztools/http/h2_bundle.go:3831-3860 | what that condition writes first is what turns of the loop write |
| ServerPanics.HeadersTwice | ztools/http/h2_bundle.go:4257-4361 | a good state, and HEADERS with END_STREAM for a stream without a body, at which the server panics |
| ServerPanics.HeadersTwiceRun | ztools/http/h2_bundle.go:4257-4361 | the method ProcessHeaders does panic there |
| ServerPanics.HandlerPanicTwice | ztools/http/h2_bundle.go:3774-3812 | a good state in which the reset for a handler's panic ends after the client reset the stream: panic |
| ServerPanics.HandlerPanicTwiceRun | ztools/http/h2_bundle.go:3774-3812 | the method WroteFrame does panic there |
| ServerPanics.UpdateBehindTheEnd | ztools/http/h2_bundle.go:4052-4081 | a good state in which a window update queued behind the last DATA is started on the closed stream: panic |
| ServerPanics.UpdateBehindTheEndRun | ztools/http/h2_bundle.go:4052-4081 | and the run in which it is |
| ServerPanics.RefusedAndReady | ztools/http/h2_bundle.go:4083-4145 | a run of ProcessFrameFromReader: a good, settled state that is going away and a SETTINGS frame of two settings, the second refused, after which a frame could be sent and nothing sends it |
| ServerPanics.SecondRefused | ztools/http/h2_bundle.go:4083-4145 | it is always the second setting that is refused there, and the first frees the frame |
| ServerPanics.HalfMoved | ztools/http/h2_bundle.go:4132-4145 | a good state with one negative window in which a new initial size is refused with, or without, having moved the other window, as the map is iterated |
| ServerPanics.MoveOne | ztools/http/h2_bundle.go:4132-4145 | the run of the loop in which it has |
| ServerCredits.Round | ztools/http/h2_bundle.go:4037-4081 | a client that opens a stream, sends 65535 bytes and resets it, with a handler that reads them afterwards, makes the connection's window grow by 65535 |
| ServerCredits.CreditedTwice | ztools/http/h2_bundle.go:4679-4730 | from a new connection, 32768 such rounds end in the panic of the receive window |
| FixedBuffers.FixedBuffer.Read | ztools/http/h2_bundle.go:486-497 | a first-in first-out read of as much as fits; fails iff empty |
| FixedBuffers.FixedBuffer.Write | ztools/http/h2_bundle.go:506-520 | accepts exactly the smaller of what is offered and what is free, compacting included, behind what is held |
| BodyFlows.Pipe.Read | ztools/http/h2_bundle.go:2808-2830 | what is buffered comes before the closing error, but not before a break |
| BodyFlows.Pipe.Write | ztools/http/h2_bundle.go:2836-2847 | fails iff closed; otherwise buffers what there is room for |
| BodyFlows.InboundStream.ProcessData | ztools/http/h2_bundle.go:4147-4210 | DATA over the declared length or over a window is refused and changes nothing; otherwise all of it is buffered: the buffer is never full |
| BodyFlows.InboundStream.HandlerRead | ztools/http/h2_bundle.go:4751-4768 | bytes come in order; the end only after all of them, with the declared length met |
| BodyFlows.InboundStream.NoteBodyRead | ztools/http/h2_bundle.go:4679-4730 | credit returns exactly what was read, and the sum with what is held never exceeds 65535 |
| BodyFlows.InboundStream.Run | ztools/http/h2_bundle.go:4147-4210 | every run of server and handler keeps window + buffered + uncredited at 65535 at most and delivers a beginning of what was received |
| Frames.ReadsBack | ztools/http/h2_bundle.go:1003-1036 | for each of the eleven kinds written, within the limit: read back as written, using up exactly its bytes, iff the parser accepts it; otherwise an error |
| Frames.MostlyReadable | ztools/http/h2_bundle.go:1435-1467 | only an empty HEADERS fragment and too large a first INITIAL_WINDOW_SIZE can be written and not read |
| Frames.DecodeConsumes | ztools/http/h2_bundle.go:1003-1036 | for all bytes: a frame that is read is within the limit and uses up its header and payload |
| Framers.Framer.EndWrite | ztools/http/h2_bundle.go:887-906 | the frame goes out with its length, or not at all when too large |
| Framers.Framer.WriteDataPadded | ztools/http/h2_bundle.go:1162-1183 | writes exactly the encoding, or refuses a bad stream or too much padding |
| Framers.Framer.WriteHeaders | ztools/http/h2_bundle.go:1504-1539 | the same, for all flags, padding and priorities |
| Framers.Framer.WritePriority | ztools/http/h2_bundle.go:1592-1607 | writes exactly the encoding or refuses |
| Framers.Framer.WriteRSTStream | ztools/http/h2_bundle.go:1630-1637 | writes exactly the encoding or refuses |
| Framers.Framer.WriteSettings | ztools/http/h2_bundle.go:1255-1262 | writes exactly the encoding of the settings in order |
| Framers.Framer.WritePushPromise | ztools/http/h2_bundle.go:1756-1778 | writes exactly the encoding or refuses |
| Framers.Framer.WriteGoAway | ztools/http/h2_bundle.go:1339-1345 | writes exactly the encoding, the stream number without its high bit |
| Framers.Framer.WriteWindowUpdate | ztools/http/h2_bundle.go:1397-1405 | writes exactly the encoding, or refuses an increment outside 1 to 2^31-1 |
| Framers.Framer.WriteContinuation | ztools/http/h2_bundle.go:1666-1677 | writes exactly the encoding or refuses |
| Framers.Framer.ReadFrame | ztools/http/h2_bundle.go:1003-1036 | reading in place is decoding the front of the stream and checking the order |
| Framers.Framer.CheckFrameOrder | ztools/http/h2_bundle.go:1050-1084 | accepts exactly the permitted frames and remembers an unfinished block |
| Framers.OnlyContinuation | ztools/http/h2_bundle.go:1050-1084 | while a block is unfinished every frame that is read is a CONTINUATION of its stream |
| Framers.SettingsReadBack | ztools/http/h2_bundle.go:1235-1262 | the settings written are the settings visited |
| Framers.ForeachSetting | ztools/http/h2_bundle.go:1235-1248 | visits the settings of any payload, in order |
| Framers.Value | ztools/http/h2_bundle.go:1220-1231 | the first value of a setting |
| HeaderBlocks.WriteHeaderBlock | ztools/http/h2_bundle.go:7518-7540 | the loop writes the frames of the split, one lead and CONTINUATIONs; nothing for an empty block |
| HeaderBlocks.SplitCarries | ztools/http/h2_bundle.go:7518-7540 | these carry exactly the block, in order, and END_HEADERS is on the last frame only |
| HeaderBlocks.BlockReadsBack | ztools/http/h2_bundle.go:7596-7607 | any header block that is not empty, split at any size within the reader's limit, is read in the permitted order as exactly that block |
| HeaderBlocks.PromiseNotContinued | ztools/http/h2_bundle.go:1050-1084 | a CONTINUATION after a PUSH_PROMISE is refused by the order check |
| HeaderBlocks.PromiseReadable | ztools/http/h2_bundle.go:7645-7656 | a promised request passes the order check iff its block fits into one frame |
| HeaderLists.MetaHeaders.Emit | ztools/http/h2_bundle.go:1922-1962 | what is kept is a good beginning of what was decoded, within the size limit, and stops only before a bad or too large field |
| HeaderLists.CheckPseudos | ztools/http/h2_bundle.go:1878-1901 | accepts exactly known pseudo fields, none twice, not of a request and a response at once |
| HeaderLists.Feed | ztools/http/h2_bundle.go:1966-1981 | the decoder gets exactly the block; the type assertion on CONTINUATION never fails |
| HeaderLists.ReadMetaFrame | ztools/http/h2_bundle.go:1915-2004 | for any input: a header list in good order, within the limit, of the block that the frames carry, complete unless marked as truncated |
| IdleConns.ConnLRU.Add | ztools/http/transport.go:2142-2152 | the connection becomes the newest |
| IdleConns.ConnLRU.RemoveOldest | ztools/http/transport.go:2154-2160 | takes the one idle longest |
| IdleConns.ConnLRU.Remove | ztools/http/transport.go:2163-2168 | takes any connection out, keeping the order of the others |
| IdleConns.AgreeMeans | ztools/http/transport.go:744-815 | agreement of map and order: the same connections, each once, each under its own key, no empty list |
| IdleConns.UnderWithout | ztools/http/transport.go:789-815 | removing from the order removes from exactly one host's list |
| IdleConns.Transport.TryPutIdleConn | ztools/http/transport.go:657-720 | refused for exactly the stated reasons; otherwise handed over, or the newest, with the oldest dropped iff over the limit; map and order agree and limits hold |
| IdleConns.Transport.GetIdleConn | ztools/http/transport.go:744-779 | the newest usable connection of the host, everything newer being unusable and gone; none iff none is usable |
| IdleConns.Transport.RemoveIdleConn | ztools/http/transport.go:782-815 | exactly this connection leaves both |
| IdleConns.Transport.CloseConnIfStillIdle | ztools/http/transport.go:1374-1384 | closes the connection iff it is idle still |
| IdleConns.Transport.CloseIdleConnections | ztools/http/transport.go:493-510 | every idle connection is closed and none is left |
| Chunks.HexValueBack | ztools/http/chunked.go:192-251 | the hexadecimal digits of every number below 2^64 are read back as the number |
| Chunks.ParseHexUint | ztools/http/chunked.go:232-251 | the loop succeeds iff the text is at most sixteen digits, with their value, never overflowing |
| Chunks.ChunkedWriter.Write | ztools/http/chunked.go:192-216 | one chunk, or nothing for no data |
| Chunks.ChunkedWriter.WriteBody | ztools/http/transfer.go:300-352 | chunks of the pieces, the last chunk, the trailer, an empty line |
| Chunks.ReadChunkLine | ztools/http/chunked.go:119-140 | a line up to a line feed, trimmed and without extension, or the error |
| Chunks.MeaningSplit | ztools/http/chunked.go:68-113 | what a stream means does not depend on how its data is delivered |
| Chunks.ChunkedReader.Read | ztools/http/chunked.go:68-113 | for all streams, buffers and partial reads: the bytes read are the next of what the stream means, and an error comes only after all of them |
| Chunks.ReadsMessage | ztools/http/chunked.go:43-113 | every complete message, whatever its chunk lines, is read as its data, then the end, at the place where the trailer begins |
| Chunks.MessageFound | ztools/http/chunked.go:43-113 | a stream on which the reader comes to a last chunk is a complete message |
| Chunks.EndReported | ztools/http/chunked.go:68-113 | for all streams: the end is reported iff a last chunk is reached or the stream ends inside the data of a chunk, never both; so the report is true iff it does not end there |
| Chunks.CutOffLooksComplete | ztools/http/chunked.go:88-108 | a stream that was cut off and is reported as ended |
| Chunks.MessageMeans | ztools/http/chunked.go:192-221 | any body written in any pieces is read back whole |
| ChunkedBodies.Body.ReadTrailer | ztools/http/transfer.go:826-866 | the empty line, or a trailer that mime takes, is used up; otherwise the error |
| ChunkedBodies.Body.ReadLocked | ztools/http/transfer.go:756-802 | the end, or what is wrong, comes after all the data, and at the end the wire is at the next message |
| ChunkedBodies.Body.Close | ztools/http/transfer.go:888-927 | reads the rest away, unless that is too much or unwanted, and leaves the wire at the next message |
| ChunkedBodies.EndIsTrue | ztools/http/transfer.go:756-802 | in every state: the body will end well iff a last chunk is reached and the trailer is good |
| ChunkedBodies.EndsWellIff | ztools/http/transfer.go:756-866 | a new body ends well iff a complete message with a good trailer is on the wire, and then yields exactly its data |
| ChunkedBodies.ReadBack | ztools/http/transfer.go:756-802 | written in any pieces, with or without trailer, read with any sizes: the data, and the wire at the next byte |
| SshPackets.PaddingFor | ztools/xssh/cipher.go:208-211 | padding of 4 to 19 bytes makes a multiple of 16 |
| SshStreamCipher.StreamPacketCipher.WritePacket | ztools/xssh/cipher.go:201-250 | exactly the sealed packet, using up as much key stream; or a stated error |
| SshStreamCipher.StreamPacketCipher.ReadPacket | ztools/xssh/cipher.go:148-198 | in place, what opening the stream comes to, with every index in range |
| SshStreamCipher.PacketBack | ztools/xssh/cipher.go:148-250 | the reader undoes the writer iff the packet is not empty and its length within the limit |
| SshGcmCipher.GcmCipher.IncIV | ztools/xssh/cipher.go:312-319 | the loop counts the last eight bytes up, the carry lost at the front |
| SshGcmCipher.IncrementAdds | ztools/xssh/cipher.go:312-319 | counting up is adding one modulo 2^64 |
| SshGcmCipher.CounterAfter | ztools/xssh/cipher.go:312-319 | after k packets the counter has advanced by k modulo 2^64, the fixed part as it was |
| SshGcmCipher.GcmCipher.WritePacket | ztools/xssh/cipher.go:278-310 | exactly the sealed packet, and the IV counted up |
| SshGcmCipher.GcmCipher.ReadPacket | ztools/xssh/cipher.go:321-356 | in place, what opening comes to |
| SshGcmCipher.PacketBack | ztools/xssh/cipher.go:278-356 | the reader undoes the writer, with the same IV afterwards, iff the packet is not empty and its length within the limit |
| SshGcmCipher.PanicIff | ztools/xssh/cipher.go:340-346 | the reader indexes out of range iff an authentic packet has the length 0 |
| SshGcmCipher.EmptyPacketPanics | ztools/xssh/cipher.go:340-346 | the sealed empty packet is one, for every key and IV |
| SshGcmCipher.Exchange | ztools/xssh/cipher.go:278-356 | any sequence of packets comes out as it went in, and both counters advance by the number of packets |
| SshCbcCipher.DecryptedEncrypted | ztools/xssh/cipher.go:375-387 | chained decryption undoes chained encryption |
| SshCbcCipher.CbcCipher.Encrypt | ztools/xssh/cipher.go:525-579 | the chained ciphertext, and its last block as the next IV |
| SshCbcCipher.CbcCipher.WritePacket | ztools/xssh/cipher.go:525-579 | whole blocks, padding of 4 to 19, exactly the sealed packet, and the IV that follows from it |
| SshCbcCipher.CbcCipher.ReadPacket | ztools/xssh/cipher.go:435-523 | in place, what opening comes to, with every index in range |
| SshCbcCipher.ErrorsAlike | ztools/xssh/cipher.go:435-447 | whatever is wrong with a packet, the same number of bytes has been read |
| SshCbcCipher.PacketBack | ztools/xssh/cipher.go:449-579 | the reader undoes the writer, with the same IV afterwards, iff the packet is not empty and its length within the limit |
| SshCbcCipher.Exchange | ztools/xssh/cipher.go:435-579 | any sequence of packets, under any sequence numbers, comes out as it went in |
| SshBuffers.Buffer.Write | ztools/xssh/buffer.go:44-51 | the bytes join the end of the linked list |
| SshBuffers.Buffer.Read | ztools/xssh/buffer.go:65-98 | the next bytes in order; waits iff there are none and it is open; the end iff there are none and it is closed |
| SshChannels.Window.Add | ztools/xssh/common.go:337-354 | refuses exactly the sums above 2^32-1 |
| SshChannels.Window.Reserve | ztools/xssh/common.go:368-386 | takes the smaller of what is wanted and there; waits iff there is nothing and it is open |
| SshChannels.PacketContent | ztools/xssh/channel.go:232-333 | a data packet that is sent says what went into it |
| SshChannels.Receiver.HandleData | ztools/xssh/channel.go:286-333 | refused for exactly the stated reasons; otherwise the window shrinks and the data joins its stream |
| SshChannels.Receiver.AdjustWindow | ztools/xssh/channel.go:335-344 | the window never exceeds its initial size, so the sum is exact |
| SshChannels.Receiver.ReadExtended | ztools/xssh/channel.go:346-368 | bytes leave their stream in order, and the window grows by as many |
| SshChannels.Receiver.Run | ztools/xssh/channel.go:286-368 | every run keeps window + pending + dropped + uncredited at the initial size and delivers beginnings of what was received |
| SshChannels.Sender.WriteExtended | ztools/xssh/channel.go:232-284 | for all grants and closes at any time: packets of 1 to the maximum payload carry a beginning of the data, n bytes of it; never more than granted; all of it unless it fails or waits; ends |
| CertTuples.IncreasingUnique | ztools/xssh/certs.go:234-250 | a set of keys has one increasing order |
| CertTuples.SortedKeys | ztools/xssh/certs.go:235-240 | the keys of the map, strictly increasing |
| CertTuples.MarshalTuples | ztools/xssh/certs.go:234-250 | the encoding of the map's tuples in key order |
| CertTuples.ParseTuples | ztools/xssh/certs.go:254-291 | accepts exactly ordered tuples with nothing left over, yielding their map; otherwise says where it stopped and why |
| CertTuples.MarshalParse | ztools/xssh/certs.go:234-291 | reading what was written gives the map back iff the lengths of all its tuples pass the reader's 32-bit test, which they do below 4 GB; otherwise the reader reports missing bytes |
| CertTuples.ReadBackIff | ztools/xssh/certs.go:254-291 | for all ordered tuples: their encoding is read back iff all lengths pass the test on the bytes left modulo 2^32 |
| CertTuples.SmallPass | ztools/xssh/messages.go:547-560 | below 4 GB all lengths pass |
| CertTuples.HalvesRefused | ztools/xssh/messages.go:547-560 | a key and a value of 2 GB each are refused |
| CertTuples.RemarshalSame | ztools/xssh/certs.go:234-291 | writing what was read gives the same bytes iff no field wraps an empty value |
| Pipelines.StepInv | ztools/processing/input.go:42-99 | every step of every goroutine keeps the conservation of runs and results, the order of closings and the counts |
| Pipelines.NoSendOnClosed | ztools/processing/input.go:42-99 | nothing is ever sent on a closed channel |
| Pipelines.NoDeadlock | ztools/processing/input.go:42-99 | until Process returns some goroutine can go on |
| Pipelines.StepShortens | ztools/processing/input.go:42-99 | every step makes the work left smaller |
| Pipelines.ProcessReturns | ztools/processing/input.go:42-99 | at the return every item was handled exactly as often as asked, each result that marshals was written exactly once, and nothing else |
| Pipelines.StepCounted | zlib/processing.go:59-88 | successes, failures, the status in the counter's hand and those in the channel are all that were reported |
| Pipelines.RunsEnd | ztools/processing/input.go:42-99 | every schedule with a worker keeps the invariants and ends |

## Findings

Where the code does not do what its design promises. Each item names the state, run or input at which that is proved, and
the lemma or method with the exact condition.

- **Removing a node of the priority tree.** The loop of `removeNode` (ztools/http/h2_bundle.go:8345) follows
  `k.next` after `k` has been relinked, so only the first kid is moved. A tree stays a tree if and only if the node
  had at most one kid (`PriorityTrees.Extract`, `PriorityTrees.RemovedTreeIff`); `PriorityScheduling.ClosingLosesADependant`
  is a run in which it does not. The same condition decides every call (`PriorityRuns.Step`).
- **Negative windows.** `http2flow.add` computes the room in int32, so a negative window refuses increments that
  fit (`FlowControl.NegativeWindowRefuses`; exactly when: `FlowControl.AcceptsIffRule`). A client that lowers the initial
  window below what was sent can then no longer grow that stream's window (`ServerConns.ServerConn.ProcessWindowUpdate`),
  nor raise the initial size again (`ServerConns.ServerConn.ProcessSettingInitialWindowSize`).
- **Refused SETTINGS.** A change of the initial window size that one stream refuses has already moved others, as the map is
  iterated (`ServerPanics.HalfMoved`, `ServerPanics.MoveOne`); the windows share a base afterwards if and only if it
  succeeded or changed nothing (`ServerConns.ServerConn.ProcessSettingInitialWindowSize`). When the connection is already
  going away, a refused SETTINGS is followed by no scheduling: frames it made ready wait (`ServerPanics.RefusedAndReady`, a
  run; exactly when, in terms of the state before and the settings: `ServerSettings.StalledIff`).
- **Panics of the serve loop.** HEADERS with END_STREAM for a stream that has no body (`ServerPanics.HeadersTwiceRun`;
  exactly when: `ServerConns.ServerConn.ProcessHeaders`). The reset for a panicked handler finishing after the
  client has reset the stream (`ServerPanics.HandlerPanicTwiceRun`). Closing a stream with unread bytes while a window
  update for it is queued: the update for the connection is sent before the stream's queue is dropped
  (`ServerPanics.UpdateBehindTheEndRun`; exactly when: `ServerPanics.ClosePanicsExactly`, and the methods do so from every
  such state: `ServerPanics.ClosePanicsRun`).
- **Bytes given back twice.** `closeStream` gives the connection's receive window what the stream had not read
  (ztools/http/h2_bundle.go:4075), and leaves it readable; when the handler then reads it, `noteBodyRead` gives it back
  again (4681). After 32768 streams reset with a full window, `sendWindowUpdate32` panics (4728):
  `ServerCredits.CreditedTwice` is that run, from a new connection. Exactly when: `ServerReceives.OverIff` for every state,
  `ServerConns.ServerConn.Handle` for every event, `ServerConns.ServerConn.Serve` for every run. A stream's own receive
  window never refuses.
- **PUSH_PROMISE with CONTINUATION.** The order check forgets an unfinished PUSH_PROMISE, so a promised request is
  accepted if and only if its header block fits into one frame (`HeaderBlocks.PromiseReadable`).
- **Cut-off chunked streams.** The chunked reader reports a plain end for a stream that ends inside the data of a
  chunk (`Chunks.CutOffLooksComplete`; exactly when: `Chunks.EndReported`). The body around it notices, because the
  trailer is missing (`ChunkedBodies.EndIsTrue`).
- **An empty authentic GCM packet** makes the reader index out of range (`SshGcmCipher.EmptyPacketPanics`;
  exactly when: `SshGcmCipher.PanicIff`).
- **Packets that can be written and not read.** All three ciphers write an empty payload, and payloads whose length
  field exceeds the reader's limit; the readers refuse exactly these (the three `PacketBack` lemmas).
- **Idle nodes.** Opening a stream that was idle leaves its node in the list of idle nodes, from which it can be
  evicted while open; the server's own CloseStream, or DATA for it, then panics (`PriorityRuns.OpenOneEvicted`, a run). An
  open stream is forgotten if and only if a call evicts it (`PriorityIndexes.ForgetsIff`), and a caller that opens and
  closes each stream once meets a panic if and only if that happens (`PriorityRuns.Run`, `PriorityIndexes.PassesIff`).
- **Certificate options of 4 GB and more.** `parseString` compares a length with the number of bytes left modulo 2^32, so
  that some encodings are refused as too short (`CertTuples.HalvesRefused`; exactly when: `CertTuples.ReadBackIff`).
- **A negative MaxIdleConns** drops every connection at once (`IdleConns.Transport.TryPutIdleConn`).
- **Other extended streams of an SSH channel.** Data with a code above 1 takes from the window and is never given
  back (`SshChannels.Receiver.HandleData`, the field `discarded`).

## Left out

- ServerConns.ServerConn.ProcessData: on a connection that is not settled, a padded last DATA frame whose stream closes
  while the padding is given back; the server then still marks the stream's dead record as half closed, the model
  does not, and nothing reads that record again.
- ServerConns.ServerConn.CloseStream: does not panic in every call at a state where its condition holds, because which queue
  is served next is left to the scheduler; ServerPanics.ClosePanicsRun makes the choices with which it does. The same goes
  for WroteFrame, ProcessResetStream and Handle.
- ServerConns.ServerConn.Pop: serves the random scheduler's order, the server's default; the priority scheduler's order
  is in PriorityScheduling, and how the server's calls reach it is not modelled.
- ServerConns.ServerConn.Serve: a receive window that refuses an increment sets `overCredited` and the event is carried to
  its end, where the code stops at once; nothing is claimed of what the event does after that, and the loop stops.
- ServerConns.ServerConn.TakeData: whether the stream's buffer takes DATA (its handler may have gone) and whether the
  declared length is exceeded come with the frame; buffer and declared length themselves are in BodyFlows.
- ServerConns.ServerConn.DrawBody: what a handler takes from a buffer and what the serve loop is told of it are two events; the
  octets are in BodyFlows.
- ServerCredits.Round: calls the methods for the frames and events of a round one by one, as the loop does.
- BodyFlows.InboundStream.Run: the connection's receive window is a parameter; it is modelled in ServerConns.
- Chunks.ChunkedWriter.Write: errors of the underlying writer, and its short writes.
- Chunks.ChunkedWriter.WriteBody: the same, and bodies that are not chunked.
- PriorityTrees.AddBytes: that moving a node does not move its bytes between subtrees is as in the code; fairness is
  not claimed.
- PriorityWalks.SortKids: the float comparison of siblings is replaced by an arbitrary permutation.
- ServerConns.ServerConn: a DATA frame is its length; that its octets are kept in order is in WriteQueues.
- Streams of a server connection are records in a map; that two pointers to a stream are the same object is not captured.
- RandomScheduling.RandomWriteScheduler.Get: the pool reuses queues but not the backing arrays of their slices.
- SshChannels.Sender.WriteExtended: the pool of packet buffers by code, and several writers on one channel at a time.
- Chunks.BufReader.Fill: an underlying reader that returns nothing and no error, and bufio's own errors other than a full buffer.
- ChunkedBodies: bodies with a length and bodies that end with the connection; only chunked ones are modelled.
- HeaderLists: HPACK itself, and the limits inside it; the decoder is a function of the block.
- SSH algorithms, HMAC, AES, RC4: functions that invert each other, and MACs of a fixed size. The check of a packet's MAC in
  constant time.
- ChunkedBodies.TrailerOf: textproto; mime is any function that says how many bytes a header section takes.
- The HTTP/2 client, dialing, TLS, DNS, timers, deadlines, proxies and cookies: I/O and plumbing.
- JSON output, command-line flags and summaries; banner grabbing for SCADA, SMB, FTP, telnet and mail: thin I/O.
- Logging, tracing hooks and the connection state callbacks of the server.
