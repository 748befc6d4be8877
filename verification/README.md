# Verified model of the transport SDK's protocol core

A Dafny model of the parts of the C++ SDK in `src/cpp` that are protocols, codecs or parsers, with
proofs of what they keep over every interleaving, every run and every input. `dafny verify
dfyconfig.toml` checks all of it.

| modules | what they model |
|---|---|
| `ConnectorState`, `Lifecycle`, `LifecycleInvariant`, `LifecycleObjects`, `LifecycleGlobals`, `LifecycleTheorems`, `LifecycleOwnership`, `LifecycleCallbacks`, `LifecycleLate`, `LifecycleProgress`, `LifecyclePool`, `LifecycleTargets`, `PoolKeys` | the HTTP connector: requests, `Close`, the destructor, the keep-alive pool, channel events and posted deletes, as a transition system over lock sections |
| `SmpPacket`, `SmpParser`, `SmpStream`, `SmpLink` | the SMP packet stream: format, incremental parser, send queue, end-to-end delivery |
| `DnsName`, `DnsMessage`, `DnsQuery`, `DnsResponse`, `DnsCache`, `DnsResolve` | the DNS codec (RFC 1035), the resolver's cache, and any number of calls that share it |
| `MasqueCodec`, `MasquePath`, `MasqueConnection`, `MasqueTunnel`, `MasqueOutcome` | MASQUE: varints, datagrams, the CONNECT-UDP path, the life times of the inner connection and its tunnel, and what comes of the tunnel's answers |
| `HttpUrl`, `HttpUrlParts`, `HttpRequestText`, `HttpHead`, `HttpFragments`, `HttpHeaders` | URL parsing, the request printer, the response accumulator |
| `Wrappers`, `Bytes`, `Texts`, `VpnPolicy` | shared value types, big-endian numbers, byte strings, the VPN policy |

Strings and buffers are sequences of bytes (`byte` is 0..255). Fields that the source updates in
place are fields of classes, and each of their methods is proved equal to a function on the old
state; the theorems are about those functions. The HTTP connector, the MASQUE pair and the resolver
are transition systems: any enabled step may be taken at any time, so a run is an arbitrary
interleaving of threads.

## The HTTP connector as a transition system

One step is one lock section, one callback entry or return, one posted task, or one event of a
channel's serial queue. `Touches` and `Deletes` say which objects the code of a step dereferences or
deletes; records of deleted objects stay in the state, so that a use after a delete would be visible.

| steps | source lines in `src/cpp/HttpConnector.cpp` |
|---|---|
| `ReqBegin`, `ReqTake`, `ReqTakeNone` | 2255-2288, 758-779 |
| `ReqRefuse`, `ReqGiveBack`, `ReqInsert`, `ReqInsertOn` | 2290-2309, 2358-2367 |
| `ReqOpen`, `ReqOpenFail`, `ReqAdopt`, `ReqAdoptFail` | 2321, 2368-2398, 2331-2351, 407-432 |
| `ReqRelease`, `ReqRetry`, `ReqCheck` | 2323-2329, 2354-2356, 2407-2414 |
| `CloseBegin`, `CloseFinish` | 2450-2485, 2486, 494-521 |
| `DtorBegin`, `DtorNotify`, `DtorWait`, `DtorDrained`, `DtorTimeout`, `DtorCut` | 1845, 1876-1921 |
| `ConnData`, `ConnKeep`, `ChanCloseConn` | 944-988 |
| `ChanClosePool`, `ChanAdoptOk`, `ChanAdoptFail`, `TimerFire` | 602-669, 1002-1053 |
| `ConnMute`, `ConnDeliver`, `ConnAfterCall` | 1416-1522 |
| `ConnPool`, `ConnPoolArm`, `ConnDetach` | 1073-1147 |
| `ConnSwap`, `ConnReopen`, `ConnReopenFail`, `ConnTail` | 1008-1053 |
| `TaskConn`, `TaskPooled`, `TaskWatcher` | 1149-1153, 434-447, 684-701, 454-485 |
| `CallReturn`, `GuardDrop` | 1475, 1521, 360-373 |

Assumptions about what surrounds it: a `TcpChannel` calls its handler on one serial queue; `Open`
and `Adopt` that fail are followed by no callback; the last event of a channel is `OnChannelClosed`,
to its current handler or watcher, once; an accepted `Adopt` ends in `OnChannelDetached` at the
watcher or in `OnChannelAdoptFailed` at the adopter and then `OnChannelClosed` at the watcher; `Adopt`
may refuse at any time and accepts only while the channel is parked (`src/cpp/TcpChannel.h:93-126`).
`Park` takes effect: it does nothing on a channel that is not ready (`src/cpp/TcpChannel.cpp:640-653`),
and it is called from a data callback, on the only thread on which that state changes.
Connections, watchers and channels have ids that are never reused; the code keys its sets by
pointer, also after the delete (`src/cpp/HttpConnector.cpp:417-418`), and an address that is
allocated again in between is not part of the model.

**A result that is not what one would hope.** The destructor's promise, that no callback starts once
it has returned, does not hold if a `Request` overlaps it: the call can take the last parked channel
out of the pool after `Close` looked at it, find the connector closing, and give the channel back. The
destructor finds everything drained and returns, and when the channel closes later, `OnClosed` is
called. `LifecycleLate.CallAfterDestructor` is such a run, in which every call has returned before the
destructor does. `LifecycleLate.LateCallIff` and `LateCallAloneIff` say exactly when: a callback is
still possible after the destructor if and only if it returned drained, with a handler, and without
`closed_notified` set. The promise holds in every run under the caller's promise (`strict` in the
model) that a `Request` overlaps the destructor only if it is made from a callback on another thread,
such as a retry from `OnHttpError` (`LifecycleCallbacks.NoCallAfterDestructor`); the connection that
is calling back then keeps the connector from being drained (`LifecycleGlobals.NestedKeepsOpen`). It
also holds in every run with the pool off, whatever overlaps, since nothing is parked then.

## Pool keys that two targets share

A pooled channel is filed under `_PoolKey` (`src/cpp/HttpConnector.cpp:526-537`), a text in which the
parts of the target follow one another. `LifecycleTargets.AdoptsOwnTarget` proves that in every run a
call adopts only a channel that was opened under its own key. Two targets can have one key:
`PoolKeys.AmbiguousIff` says exactly when. Neither a host without a colon nor one with colons is in
doubt as long as the resolved addresses are numeric (`PoolKeys.UsualIsOwn`,
`PoolKeys.PoolKeyInjective`); `resolvedIp` is compared before it is parsed
(`src/cpp/TcpChannel.cpp:387-396`), so a call with another text, whose own `Open` would fail, can
still take a parked channel that shares its key.

## A cached answer over another network

The resolver's cache key is the host, the policy and the interface (`src/cpp/DnsResolver.cpp:372-377`).
The network handle that a question's socket is pinned to, the servers and their port are not in it
(`src/cpp/DnsResolver.cpp:509-551`), and a force-physical call may have a handle and no interface
(`src/cpp/DnsResolver.cpp:777-782`). So a call can get an answer that was obtained over another call's
network: `DnsResolve.OtherHandleServed`. `DnsResolve.OwnWayIff` says when it cannot happen in any run:
if and only if no two of the questions asked agree in the key and differ in the rest.

## Model

| member | source | states |
|---|---|---|
| `ConnectorState.HttpConnectorState.AllDrainedLocked` | src/cpp/HttpConnector.cpp:399-405 | tells whether all four collections are empty |
| `ConnectorState.HttpConnectorState.DetachAndArmClosed` | src/cpp/HttpConnector.cpp:407-432 | removes the connection from both sets and, if it was the last one out, sets the notified flag and raises the in-flight counter in the same section |
| `ConnectorState.HttpConnectorState.FinishIdleDestroy` | src/cpp/HttpConnector.cpp:454-480 | counts one idle destruction down, never below zero, with the same test |
| `ConnectorState.HttpConnectorState.NotifyClosedIfDrained` | src/cpp/HttpConnector.cpp:494-519 | sets the notified flag once when drained, and arms only if there is a handler |
| `ConnectorState.HttpConnectorState.DetachAndScheduleDestroy` | src/cpp/HttpConnector.cpp:1127-1139 | moves a connection from `conns` to `destroying` if it is there |
| `ConnectorState.HttpConnectorState.Take` | src/cpp/HttpConnector.cpp:758-779 | hands out the most recently parked channel of a key, drops a list that became empty, and holds the destruction of what it hands out, and of nothing else, back |
| `ConnectorState.HttpConnectorState.Remove` | src/cpp/HttpConnector.cpp:714-735 | removes the first occurrence of a watcher from its key's list, keeping the order of the others |
| `ConnectorState.HttpConnectorState.Put` | src/cpp/HttpConnector.cpp:1088-1107 | parks a channel only while neither closing nor abandoned and below the limit |
| `ConnectorState.PooledChannel.Release` | src/cpp/HttpConnector.cpp:585-597 | ends the hold and tells which terminal event was held back |
| `ConnectorState.PooledChannel.OnChannelClosed` | src/cpp/HttpConnector.cpp:620-642 | schedules the destruction at once, or leaves it to the holder |
| `ConnectorState.PooledChannel.OnChannelDetached` | src/cpp/HttpConnector.cpp:644-669 | the same for a channel that was adopted away |
| `ConnectorState.WithoutAt` | src/cpp/HttpConnector.cpp:714-735 | removing one watcher splices exactly that position out of the list |
| `LifecycleInvariant.InitialInv` | src/cpp/HttpConnector.h:280-341 | a new connector satisfies the invariant |
| `LifecycleTheorems.StepInv` | src/cpp/HttpConnector.cpp:344-521 | every step of every thread keeps the whole invariant: objects, owners, books, counters and flags |
| `LifecycleObjects.ReqObjects` | src/cpp/HttpConnector.cpp:2255-2414 | every section of a `Request` call keeps every connection, watcher, channel and request in order |
| `LifecycleObjects.ConnObjects` | src/cpp/HttpConnector.cpp:1002-1154 | so does every section of a connection's handler |
| `LifecycleGlobals.CloseGlobals` | src/cpp/HttpConnector.cpp:1843-1922 | `Close` and the destructor keep the counters, the flags and the debt of `OnClosed` |
| `LifecycleGlobals.NestedKeepsOpen` | src/cpp/HttpConnector.cpp:1464-1475 | a `Request` made from a callback never drains the connector: the callback's connection is still listed, or `OnClosed` is settled |
| `LifecycleGlobals.OnlyOwnFrames` | src/cpp/HttpConnector.cpp:1882-1920 | when the in-flight count is at most the destructor's own depth, all callbacks in flight are its own |
| `LifecycleTheorems.NoUseAfterFree` | src/cpp/HttpConnector.cpp:1127-1154 | in every reachable state no step dereferences or deletes an object that was deleted before |
| `LifecycleOwnership.DeletesOnce` | src/cpp/HttpConnector.cpp:684-701 | an object is dead after a step exactly if it was before or this step deletes it, and only living objects are deleted |
| `LifecycleOwnership.DeletedOnceInARun` | src/cpp/HttpConnector.cpp:834-840 | in every run each connection, watcher and channel is deleted at most once, by one owner, and exactly once if it is dead at the end |
| `LifecycleOwnership.PostsOnce` | src/cpp/HttpConnector.cpp:585-669 | a delete task is posted by a watcher that has none yet, after its terminal event, with no hold left |
| `LifecycleOwnership.PostedOnceInARun` | src/cpp/HttpConnector.cpp:585-701 | whatever the order of terminal event and `Release`, the delete task is posted exactly once, as soon as the event is in and nobody holds |
| `LifecycleOwnership.ScheduledUntouched` | src/cpp/HttpConnector.cpp:684-701 | after that only the task itself touches the watcher |
| `LifecycleOwnership.WatcherSteps` | src/cpp/HttpConnector.cpp:585-779 | the methods of the watcher, as the class performs them, are exactly what the steps of the life cycle do to it: holding it with the take, the release and the two terminal events |
| `LifecycleOwnership.TakesParked` | src/cpp/HttpConnector.cpp:758-779 | `_TakeFromPool` hands out only a live parked channel without terminal event, hold or earlier adoption |
| `LifecycleOwnership.IdleListsBounded` | src/cpp/HttpConnector.cpp:1094-1106 | every idle list is non-empty, without repetitions, within the limit, and disjoint from the others |
| `ConnectorState.PutThenTake` | src/cpp/HttpConnector.cpp:758-779 | a channel is parked exactly in a pool that is open and has room for its key; it is the next that is taken for this key and for no other, and taking or removing it leaves the pool as it was |
| `PoolKeys.PoolKeyInjective` | src/cpp/HttpConnector.cpp:526-537 | host, port, TLS, policy, interface, handle and resolved address are all kept apart by the key, colons in the host included, as long as no resolved address holds an "r" |
| `PoolKeys.AmbiguousIff` | src/cpp/HttpConnector.cpp:526-537 | another target has the same key if and only if the resolved address ends like a key from its port on or the host begins like a key up to its resolved address |
| `PoolKeys.UsualIsOwn` | src/cpp/HttpConnector.cpp:526-537 | the key of a host without a colon and a resolved address without an "r" is no other target's |
| `LifecycleTargets.AdoptsOwnTarget` | src/cpp/HttpConnector.cpp:2265-2302 | in every run the channel that a `Request` adopts was opened for a call whose own first step came with the same key, and with the same target unless that target's key is ambiguous |
| `LifecycleTargets.ServesOwnTarget` | src/cpp/HttpConnector.cpp:843-873 | in every run the channel that serves a connection, fresh, adopted or opened anew, was opened for a call with the key, and unless ambiguous the target, of the connection's own call |
| `LifecycleTargets.StepTargets` | src/cpp/HttpConnector.cpp:2265-2398 | every step keeps the books of which call came with which target, which call started which connection, and which call a channel was opened for |
| `LifecyclePool.ParksComplete` | src/cpp/HttpConnector.cpp:1073-1147 | in every reachable state only the open channel of a message that is complete, has not failed and was delivered goes to the pool |
| `LifecyclePool.ParkedIsTaken` | src/cpp/HttpConnector.cpp:1088-1107 | what is parked is what the next call with its key takes; it is not parked exactly if the pool has no room or is closing |
| `LifecyclePool.TimerArmed` | src/cpp/HttpConnector.cpp:1108-1126 | what was parked gets its idle timer, what was not gets none |
| `LifecyclePool.LooksIntoPool` | src/cpp/HttpConnector.cpp:2283-2288 | with the pool on a call looks into it under the key of its own target before anything else |
| `LifecyclePool.TakesLastParked` | src/cpp/HttpConnector.cpp:758-779 | it goes on with the last channel under its key, or without one exactly if there is none |
| `LifecyclePool.FailsOnlyFor` | src/cpp/HttpConnector.cpp:2290-2398 | a call fails only while the connector is closing or when its own `Open` fails; a channel that cannot be adopted is given up for a fresh one |
| `LifecyclePool.ReopensUnlessClosing` | src/cpp/HttpConnector.cpp:1002-1040 | a connection whose channel was lost before the adoption opens a fresh one exactly if the connector was not closing |
| `LifecycleCallbacks.AnsweredOnce` | src/cpp/HttpConnector.cpp:1416-1522 | at most one answer per request, none after a synchronous failure, exactly one once the connection of a successful request has ended unless abandoned; a response if and only if the message was complete |
| `LifecycleCallbacks.FailedStaysSilent` | src/cpp/HttpConnector.cpp:2371-2398 | a request that failed synchronously is never answered in any continuation |
| `LifecycleCallbacks.AbandonedIsSilent` | src/cpp/HttpConnector.cpp:1894-1911 | from the moment the destructor gives up, no request is answered and `OnClosed` is not called in any continuation |
| `LifecycleCallbacks.OnClosedOnceAndDrained` | src/cpp/HttpConnector.cpp:399-521 | `OnClosed` is armed at most once, only closing and with all four collections empty, while no request handler runs |
| `LifecycleCallbacks.OnClosedIsLast` | src/cpp/HttpConnector.cpp:344-379 | in every continuation no request handler runs or is called again, nor is `OnClosed` |
| `LifecycleCallbacks.OnClosedNotLost` | src/cpp/HttpConnector.cpp:407-521 | at rest, a closing connector with a handler that was not abandoned has called `OnClosed` exactly once |
| `LifecycleCallbacks.NoAnswerLost` | src/cpp/HttpConnector.cpp:2321-2414 | at rest, every successful request has had its one answer unless abandoned |
| `LifecycleCallbacks.ReturnsAlone` | src/cpp/HttpConnector.cpp:1876-1922 | when the destructor returns, drained or abandoned, no other thread is inside a callback |
| `LifecycleCallbacks.NoCallAfterDestructor` | src/cpp/HttpConnector.cpp:1843-1951 | if every `Request` that overlaps the destructor is made from a callback on another thread, or no channel is ever pooled, no continuation starts any callback after it |
| `LifecycleLate.LateCallIff` | src/cpp/HttpConnector.cpp:1883-1893 | without that promise: a callback may still start after the destructor if and only if it returned neither abandoned, nor without a handler, nor notified |
| `LifecycleLate.LateCallAloneIff` | src/cpp/HttpConnector.cpp:1883-1893 | the same when every `Request` and `Close` has returned by then: channel events and posted tasks alone start a callback if and only if it was not settled |
| `LifecycleLate.CallAfterDestructor` | src/cpp/HttpConnector.cpp:2285-2302 | a run in which a `Request` overlaps the destructor, all calls return, and channel events and tasks alone make `OnClosed` come afterwards |
| `LifecycleProgress.RequestProgress` | src/cpp/HttpConnector.cpp:2285-2414 | a `Request` call never waits: it always has a next section |
| `LifecycleProgress.HandlerProgress` | src/cpp/HttpConnector.cpp:944-1154 | a connection's handler waits for nothing but the callback it called |
| `LifecycleProgress.StoppedIsComplete` | src/cpp/HttpConnector.cpp:1127-1154 | when nothing has a step left and the channels have ended, `OnClosed` and every answer were delivered and nothing is left allocated |
| `SmpPacket.HeaderRoundTrip` | src/cpp/SMPParser.cpp:279-305 | the header read back is the header written, whatever follows |
| `SmpPacket.BytesOfHeader` | src/cpp/SMPParser.cpp:279-305 | every 17 bytes are a header, and writing it gives them back |
| `SmpPacket.PacketsAppend` | src/cpp/SMPParser.cpp:174-208 | chunk independence: a stream parsed in two parts gives the packets and the residue of the whole |
| `SmpPacket.AnySplit` | src/cpp/SMPParser.cpp:174-208 | the same for any number of chunks |
| `SmpPacket.PacketsOfStream` | src/cpp/SMPParser.cpp:256-277 | parsing a wire image gives exactly the packets it was packed from |
| `SmpPacket.StreamOfPackets` | src/cpp/SMPParser.cpp:174-208 | re-packing what was parsed, with the residue, gives the stream back |
| `SmpPacket.PrefixDelivers` | src/cpp/SMPParser.cpp:174-208 | of any part of a wire image the parser reports the first packets sent and keeps a proper beginning of the next |
| `SmpParser.SMPParser.Parse` | src/cpp/SMPParser.cpp:174-208 | reports exactly the packets of the bytes kept and the new ones, keeps exactly the residue, in bounds, in one of two states, and terminates with empty payloads too |
| `SmpParser.SMPParser.Append` | src/cpp/SMPParser.cpp:177-182 | grows the buffer only if needed and appends the bytes |
| `SmpParser.SMPParser.Compact` | src/cpp/SMPParser.cpp:199-207 | moves the unparsed bytes to the front without changing them |
| `SmpParser.SMPParser.RequireData` | src/cpp/SMPParser.cpp:279-289 | the 32-bit requirement is zero before it is set, so it does not wrap |
| `SmpParser.SMPParser.ParseHeaderStep` | src/cpp/SMPParser.cpp:291-312 | consumes 17 bytes and keeps them as the header |
| `SmpParser.SMPParser.ParsePayloadStep` | src/cpp/SMPParser.cpp:314-325 | reports the first packet and drops its bytes |
| `SmpStream.PackPacket` | src/cpp/SMPParser.cpp:256-277 | writes type, size, timestamp, transaction id and payload |
| `SmpStream.SMPStream.SendBuffList` | src/cpp/SMPConnector.cpp:299-334 | offers blocks until the queue is empty or one is refused; the refused block is still the next |
| `SmpStream.SMPStream.SendPacket` | src/cpp/SMPConnector.cpp:189-201 | queues the packet behind all others and pushes the queue out: on return everything queued is on the wire, or this call's last offer was refused and is the next to be made |
| `SmpStream.SMPStream.OnWriteNotify` | src/cpp/SMPConnector.cpp:253-257 | pushes the queue out in the same way |
| `SmpStream.QueuePop` | src/cpp/SMPConnector.cpp:324-332 | `OnStreamDataSent` is due for the first packet when nothing of it is left |
| `SmpStream.SentIsTaken` | src/cpp/SMPConnector.cpp:299-334 | the packets reported as sent are, in order, exactly those wholly on the wire |
| `SmpStream.WireIsPrefix` | src/cpp/SMPConnector.cpp:299-334 | the bytes on the wire are a beginning of the packed queue, and all of it when nothing is left to send |
| `SmpLink.Link.Send` | src/cpp/SMPConnector.cpp:189-201 | if no offer of the call is refused, nothing is left to send |
| `SmpLink.Link.WriteNotify` | src/cpp/SMPConnector.cpp:253-257 | if no offer of the call is refused, nothing is left to send |
| `SmpLink.Link.Read` | src/cpp/SMPConnector.cpp:212-251 | the peer may read any portion at any time; when nothing is left to send and it has read everything, it has been given exactly the packets queued |
| `SmpLink.DeliveredAt` | src/cpp/SMPConnector.cpp:299-334 | of any part of the wire that has been read, the packets reported are the first ones queued, unchanged and in order, and all of them once everything is sent and read |
| `SmpLink.Link.Delivered` | src/cpp/SMPConnector.cpp:283-292 | the same in every state of a sender, a transport and a receiver |
| `DnsName.SkipName` | src/cpp/DnsResolver.cpp:122-153 | the in-place length of a name, 0 for every malformed one |
| `DnsName.DecodeQuestionName` | src/cpp/DnsResolver.cpp:174-206 | the lower-case text of the name reached through at most 32 pointers |
| `DnsName.DecodesIff` | src/cpp/DnsResolver.cpp:174-206 | decoding succeeds if and only if the pointers lead to a root within the budget |
| `DnsName.CycleFails` | src/cpp/DnsResolver.cpp:181-192 | a pointer to itself and every cycle of pointers make decoding fail, whatever the budget |
| `DnsName.WalkersAgree` | src/cpp/DnsResolver.cpp:122-206 | whenever a name decodes, skipping it succeeds, stays in bounds and ends behind the first pointer or the root |
| `DnsMessage.LowerNoTrailingDot` | src/cpp/DnsResolver.cpp:208-214 | strips all dots at the end and lowers the rest |
| `DnsMessage.ParseAnswers` | src/cpp/DnsResolver.cpp:301-345 | the addresses are those of the A records of length 4 and the AAAA records of length 16, in wire order, and the TTL is their least |
| `DnsMessage.ParseResponse` | src/cpp/DnsResolver.cpp:218-353 | refines the record-level meaning: same verdict and reason, same addresses and least TTL; failure leaves no address |
| `DnsMessage.AllRecords` | src/cpp/DnsResolver.cpp:301-331 | records are complete if and only if as many as announced are whole |
| `DnsMessage.TruncationIsPrefix` | src/cpp/DnsResolver.cpp:301-350 | with the TC bit, any cut that is accepted gives a beginning of the whole message's addresses, and the whole is accepted |
| `DnsResponse.ResourceReadBack` | src/cpp/DnsResolver.cpp:301-331 | a record on the wire, with any labels and any pointer to an earlier name for its owner, is read as exactly its type, time to live and data, up to exactly its end |
| `DnsResponse.RecordBytesAgain` | src/cpp/DnsResolver.cpp:311-331 | the type, time to live, length and data that were read are, in network order, the bytes of the record |
| `DnsResponse.NameSkipped` | src/cpp/DnsResolver.cpp:122-153 | a name of any labels that ends at the root or in a pointer backwards is skipped as a whole |
| `DnsResponse.SelfPointerRefused` | src/cpp/DnsResolver.cpp:136-142 | a name that is a pointer to itself is malformed |
| `DnsResponse.ResponseReadBack` | src/cpp/DnsResolver.cpp:218-353 | a whole response, from bytes: it is judged by its id, flags and question alone, and if accepted read as exactly the A and AAAA answers that it was written with, whatever other records and sections it holds |
| `DnsResponse.LeastRead` | src/cpp/DnsResolver.cpp:325-345 | the TTL that is reported is the least of those of the addresses written, or the caller's if there are none |
| `DnsQuery.BuildQuery` | src/cpp/DnsResolver.cpp:61-120 | the query of the host, or nothing if a label or the name is too long or empty |
| `DnsResponse.QueryReadBack` | src/cpp/DnsResolver.cpp:95-118 | the query holds the id, one question with recursion desired, the host's labels, the type and class IN, and nothing else |
| `DnsQuery.QueryBounds` | src/cpp/DnsResolver.cpp:66-93 | the length of a query; an empty host or a trailing dot is refused |
| `DnsQuery.EncodedLength` | src/cpp/DnsResolver.cpp:68-93 | the name field is one byte longer than the host, and two with its root |
| `DnsQuery.TextOfSplit` | src/cpp/DnsResolver.cpp:174-206 | joining the labels again gives the host in lower case |
| `DnsQuery.EncodedStands` | src/cpp/DnsResolver.cpp:69-90 | in the name field of a query the labels stand one behind the other before the root |
| `DnsQuery.NameInPlace` | src/cpp/DnsResolver.cpp:174-206 | reading a name at labels that stand so gives these labels and stops at the root behind them |
| `DnsQuery.EchoAccepted` | src/cpp/DnsResolver.cpp:258-296 | the echoed query is accepted for every host equal up to case and trailing dots, or for none expected, and refused as a mismatch for every other |
| `DnsQuery.Variants` | src/cpp/DnsResolver.cpp:208-214 | case and dots at the end make no difference |
| `DnsCache.CacheKeyInjective` | src/cpp/DnsResolver.cpp:372-377 | two questions have the same key only if they are the same, bars in the host included |
| `DnsCache.ClampTtl` | src/cpp/DnsResolver.cpp:379-384 | the time to live is kept within 10 and 600 seconds |
| `DnsCache.LookupErases` | src/cpp/DnsResolver.cpp:386-402 | a lookup erases the entry it met exactly if that has expired, and no other |
| `DnsResolve.DnsResolver.CacheLookup` | src/cpp/DnsResolver.cpp:386-402 | a hit is an unexpired entry; an expired one is erased |
| `DnsResolve.DnsResolver.CacheStore` | src/cpp/DnsResolver.cpp:404-414 | an entry lives for the clamped time |
| `DnsResolve.DnsResolver.BeginCall` | src/cpp/DnsResolver.cpp:738-788 | literals are their own answer, force-physical without an interface is refused, everything else goes to the cache as the caller meant it: the policy set or else the platform's, the interface given or else the one detected, and the way given |
| `DnsResolve.DnsResolver.Finish` | src/cpp/DnsResolver.cpp:804-826 | a refused first question falls back to the system and its answer is not stored; an answered one is stored if it has addresses |
| `DnsResolve.HitServes` | src/cpp/DnsResolver.cpp:790-794 | what is found under a question's key was stored for the same host, policy and interface |
| `DnsResolve.StepInv` | src/cpp/DnsResolver.cpp:790-827 | every step of every call keeps the cache backed by stored answers and every call's result justified |
| `DnsResolve.Provenance` | src/cpp/DnsResolver.cpp:738-827 | in every interleaving of any number of calls, a cached result was answered for the same host, policy and interface, over UDP unless under the OS policy, and stored no longer ago than its clamped TTL; any other result was answered to the call itself |
| `DnsResolve.NeverSystemNorFallback` | src/cpp/DnsResolver.cpp:804-826 | in every run a question under force-physical reaches UDP only, and no fallback answer is ever stored |
| `DnsResolve.SameKeyIff` | src/cpp/DnsResolver.cpp:372-377 | two questions share an entry exactly if host, policy and interface agree; the handle, the servers and the port do not matter |
| `DnsResolve.OwnWayIff` | src/cpp/DnsResolver.cpp:372-377 | for any set of questions: in all runs that ask only them a cached answer came the way the caller would have asked, if and only if no two of them share an entry and differ in network handle, servers or port |
| `DnsResolve.OtherHandleServed` | src/cpp/DnsResolver.cpp:777-794 | two force-physical calls without an interface and with different network handles: in a reachable state the second one holds an answer that only the first one's handle obtained |
| `DnsResolve.AsksAsMeant` | src/cpp/DnsResolver.cpp:738-806 | in every run, whatever other calls do, a step of a call adds at most one question, for its host and under the policy and interface that the caller set; a call begun under force-physical never puts one to the system, one under the OS policy never puts one over UDP |
| `DnsResolve.StoredIsServed` | src/cpp/DnsResolver.cpp:386-414 | a stored answer serves the next lookup for the same host, policy and interface for its clamped TTL: surely within ten seconds, surely not after ten minutes |
| `DnsResolve.DnsResolver.Resolve` | src/cpp/DnsResolver.cpp:738-827 | one whole call with any steps of others in between: its result is justified in the same way, and by questions as the caller meant them; a literal is its own answer, and it is refused for want of an interface exactly under force-physical with neither interface nor handle |
| `MasqueCodec.VarintRoundTrip` | src/cpp/MasqueFraming.cpp:15-80 | decoding gives every 64-bit value back modulo 2^62, whatever follows |
| `MasqueCodec.VarintShortest` | src/cpp/MasqueFraming.cpp:15-25 | the length used is the shortest for the value |
| `MasqueCodec.VarintReencode` | src/cpp/MasqueFraming.cpp:27-80 | re-encoding reproduces the bytes if and only if they were of shortest form |
| `MasqueCodec.VarintEncode` | src/cpp/MasqueFraming.cpp:27-59 | writes the varint at its place and nothing else, or nothing if there is no room |
| `MasqueCodec.VarintDecode` | src/cpp/MasqueFraming.cpp:61-80 | 0 when empty or short, else length and value |
| `MasqueCodec.EncodeDatagram` | src/cpp/MasqueFraming.cpp:138-160 | always succeeds and is the two integers and the payload |
| `MasqueCodec.DecodeDatagram` | src/cpp/MasqueFraming.cpp:162-192 | the two integers and the rest, or a failure |
| `MasqueCodec.DatagramRoundTrip` | src/cpp/MasqueFraming.cpp:138-192 | decoding inverts encoding, ids modulo 2^62 |
| `MasqueCodec.DatagramReencode` | src/cpp/MasqueFraming.cpp:138-192 | re-encoding reproduces a datagram if and only if both integers were shortest and the context is UDP's |
| `MasqueCodec.FitsMss` | src/cpp/SMPConnector.cpp:1861-1885 | a payload is within the MSS if and only if its datagram leaves the 64-byte margin free |
| `MasquePath.PercentEncodeSegment` | src/cpp/MasqueFraming.cpp:94-109 | escapes everything but the unreserved characters |
| `MasquePath.SegmentRoundTrip` | src/cpp/MasqueFraming.cpp:94-109 | percent-decoding gives every byte string back |
| `MasquePath.BuildConnectUdpPath` | src/cpp/MasqueFraming.cpp:111-126 | the path of host, without brackets, and port |
| `MasquePath.PathNamesTarget` | src/cpp/MasqueFraming.cpp:111-126 | two targets with the same path are the same up to brackets |
| `MasquePath.UnreservedIs` | src/cpp/MasqueFraming.cpp:86-107 | the letters, the digits and "-._~" stay, every other byte is escaped |
| `MasquePath.PathReadBack` | src/cpp/MasqueFraming.cpp:111-126 | a proxy that reads the template, and unescapes host and port, gets exactly these |
| `MasquePath.BracketsDropped` | src/cpp/MasqueFraming.cpp:111-117 | an address in brackets is sent without them |
| `MasqueConnection.CloseCheckSafe` | src/cpp/SMPConnector.cpp:2335-2398 | a connection detaches only when its QUIC connection, its socket and its tunnel are gone; a working one is left alone |
| `MasqueConnection.CloseCheckTwice` | src/cpp/SMPConnector.cpp:2335-2398 | checking again changes nothing and tells the tunnel to close only once |
| `MasqueConnection.CloseCheckGoesOn` | src/cpp/SMPConnector.cpp:2335-2398 | a closing connection past its first state is let go exactly if nothing keeps it, and tells its tunnel to close exactly if nothing else does |
| `MasqueConnection.SMPConnection.CheckClose` | src/cpp/SMPConnector.cpp:2335-2398 | computes the next stage of closing in place |
| `MasqueConnection.SMPConnection.TunnelGone` | src/cpp/SMPConnector.cpp:2400-2429 | forgets the tunnel and goes on closing, also from the initial state |
| `MasqueTunnel.StepInv` | src/cpp/SMPConnector.cpp:1819-2020 | every task and callback of both queues keeps the pair in order |
| `MasqueTunnel.DetachedIsFree` | src/cpp/SMPConnector.cpp:2373-2394 | once the inner connection has detached, its tunnel does not exist and no task of it is queued |
| `MasqueTunnel.TunnelPointsAtLiveInner` | src/cpp/SMPConnector.cpp:2211-2227 | a tunnel that can still post points at an inner connection that has not detached |
| `MasqueTunnel.TunnelClosedInv` | src/cpp/SMPConnector.cpp:2400-2429 | when the inner connection learns that the tunnel is closed, the tunnel's queue has ended and nothing else of it is pending |
| `MasqueTunnel.TunnelDeletedOnce` | src/cpp/SMPConnector.cpp:2400-2412 | the tunnel is deleted at most once, after its queue ended; it is never used after that, and never replaced |
| `MasqueOutcome.QuicNeedsAcceptance` | src/cpp/SMPConnector.cpp:1917-1961 | in every run an inner connection has a QUIC connection only after the proxy has accepted its tunnel |
| `MasqueOutcome.AcceptedConnects` | src/cpp/SMPConnector.cpp:1954-1960 | an acceptance lets a working connection go to QUIC, and it goes on working exactly if that succeeds |
| `MasqueOutcome.RefusedStops` | src/cpp/SMPConnector.cpp:1945-1953 | a refusal ends a working connection and starts no QUIC connection |
| `MasqueOutcome.AnswerPassedOn` | src/cpp/SMPConnector.cpp:1917-1936 | every answer of the proxy but a repeated acceptance is passed on as it is, and nothing else is passed on as an acceptance |
| `MasqueOutcome.InnerEnds` | src/cpp/SMPConnector.cpp:2335-2429 | its user, its socket, its timer, its QUIC connection and its tunnel each end the inner connection, and nothing makes it work again |
| `MasqueOutcome.InnerGoesOn` | src/cpp/SMPConnector.cpp:2022-2048 | nothing else ends it, but for a refusal or a `Connect` that fails |
| `MasqueOutcome.ConnectStartsTunnel` | src/cpp/SMPConnector.cpp:1204-1212 | the first `Connect` starts a tunnel that is to connect to the proxy, and no QUIC connection |
| `MasqueOutcome.TunnelConnects` | src/cpp/SMPConnector.cpp:1832-1859 | the tunnel's first task goes to the proxy; if that fails, the inner connection is told |
| `MasqueOutcome.TunnelEnds` | src/cpp/SMPConnector.cpp:2335-2398 | the inner connection's wish, the socket and the QUIC connection each end the tunnel |
| `MasqueOutcome.GivenUpIsTold` | src/cpp/SMPConnector.cpp:2379-2390 | in every run a tunnel that was given up has stopped working or has the task that will stop it in its queue |
| `MasqueOutcome.PacketsPassedOn` | src/cpp/SMPConnector.cpp:1963-2020 | while the tunnel works, every packet is passed on, in both directions |
| `HttpUrl.ParseUrl` | src/cpp/HttpConnector.cpp:1575-1741 | computes the parts, or the first reason to refuse, in place |
| `HttpUrl.SplitAuthority` | src/cpp/HttpConnector.cpp:1618-1673 | host, bracketed or not, and port text |
| `HttpUrl.ReadPort` | src/cpp/HttpConnector.cpp:1680-1705 | an empty port is the default one; otherwise one to five digits from 1 to 65535 |
| `HttpUrl.AuthorityReadBack` | src/cpp/HttpConnector.cpp:1708-1715 | a printed Host value parses to the same host and the same port |
| `HttpUrl.TargetAgain` | src/cpp/HttpConnector.cpp:1717-1738 | a target starts with a slash, has no fragment and is its own target |
| `HttpUrl.PrintedParsesAgain` | src/cpp/HttpConnector.cpp:1575-1741 | for every accepted URL, the URL printed from its parts parses to exactly the same parts |
| `HttpUrlParts.WrittenParsed` | src/cpp/HttpConnector.cpp:1575-1741 | every http or https URL written from its parts, scheme in any case, port or not, path, query and fragment or not, is parsed into these: 443 or 80 without a port, path and query as the target, no fragment |
| `HttpUrlParts.PartsAreClean` | src/cpp/HttpConnector.cpp:1673-1737 | whatever the URL, neither host nor target holds white space or control characters |
| `HttpUrlParts.UserInfoRefused` | src/cpp/HttpConnector.cpp:1624-1628 | an authority with user information is refused |
| `HttpRequestText.BuildRequestText` | src/cpp/HttpConnector.cpp:1743-1831 | the printed head and body, or the first reason to refuse |
| `HttpRequestText.FirstBlank` | src/cpp/HttpConnector.cpp:1795-1830 | the first CR LF CR LF is the end of the head |
| `HttpRequestText.PrintedReadBack` | src/cpp/HttpConnector.cpp:1795-1830 | a receiver reads exactly the lines and the body that were printed |
| `HttpRequestText.TextReadBack` | src/cpp/HttpConnector.cpp:1743-1831 | every built text reads back as the method (GET if none), the target, the intended fields and the body |
| `HttpRequestText.OneHost` | src/cpp/HttpConnector.cpp:1777-1797 | exactly one Host field, the first, with the user's value if there is one |
| `HttpRequestText.HostIsMeant` | src/cpp/HttpConnector.cpp:1777-1797 | its value is that of the user's first Host header, whatever its case, or the URL's |
| `HttpRequestText.OneAgent` | src/cpp/HttpConnector.cpp:1799-1802 | the connector names itself exactly if the user names no agent |
| `HttpRequestText.LengthIsNeeded` | src/cpp/HttpConnector.cpp:1793-1805 | a length is needed exactly with a body or for POST, PUT and PATCH in any case |
| `HttpRequestText.OneLength` | src/cpp/HttpConnector.cpp:1791-1805 | one Content-Length exactly if needed, and none from the user |
| `HttpRequestText.NoTransferEncoding` | src/cpp/HttpConnector.cpp:1816-1827 | Transfer-Encoding is never sent |
| `HttpRequestText.ConnectionOnlyToClose` | src/cpp/HttpConnector.cpp:1806-1827 | Connection is sent only as `close`, and never from the user |
| `HttpRequestText.OwnFieldsSent` | src/cpp/HttpConnector.cpp:1801-1827 | Content-Length carries the body's length, and every user field but the four of the connector is sent |
| `HttpRequestText.KeptInOrder` | src/cpp/HttpConnector.cpp:1814-1828 | the user's fields are sent in their order, each exactly once |
| `HttpRequestText.UrlPartsFit` | src/cpp/HttpConnector.cpp:2246-2267 | the parts of an accepted URL never make the text fail: only method, headers or an empty Host can |
| `HttpHead.HttpConnection.CommitHeader` | src/cpp/HttpConnector.cpp:1321-1353 | adds the pending header under its lower-case name, joins repeated ones with ", ", refuses the 201st |
| `HttpHead.HttpConnection.OnHeaderField` | src/cpp/HttpConnector.cpp:1182-1195 | commits the previous header, charges and limits the fragment |
| `HttpHead.HttpConnection.OnHeadersComplete` | src/cpp/HttpConnector.cpp:1209-1262 | commits; forgets everything of a 1xx head and counts it, at most eight; says that no body follows a HEAD request, a 204 or a 304 |
| `HttpHead.HttpConnection.OnMessageComplete` | src/cpp/HttpConnector.cpp:1279-1312 | ends an interim message, or commits trailers, the status and the keep-alive decision |
| `HttpHead.RunWithinLimits` | src/cpp/HttpConnector.cpp:1321-1377 | no sequence of callbacks exceeds any of the limits |
| `HttpHead.InterimCounted` | src/cpp/HttpConnector.cpp:1223-1248 | a 1xx head is counted and otherwise forgotten; the ninth is refused |
| `HttpHead.StatusStays` | src/cpp/HttpConnector.cpp:1209-1312 | the status is that of the head, whatever the parser says at the end |
| `HttpHeaders.MessageHeaders` | src/cpp/HttpConnector.cpp:1321-1353 | a message is refused exactly with more than two hundred names; otherwise the map has exactly these names in lower case, each with its values in order and ", " between them |
| `HttpFragments.RunHeaders` | src/cpp/HttpConnector.cpp:1182-1207 | a block of headers ends in the same map and the same decision however it is cut |
| `HttpFragments.RunResponse` | src/cpp/HttpConnector.cpp:1167-1312 | the accumulator computes the meaning of the whole response, for every cut |
| `HttpFragments.CutsAgree` | src/cpp/HttpConnector.cpp:1167-1312 | two cuts of the same response end in the same state or are both refused |
| `HttpFragments.InterimsForgotten` | src/cpp/HttpConnector.cpp:1223-1248 | of the 1xx heads only their number is left |

## Left out

- HTTP connector, granularity: work on objects that no other thread can reach is part of the step before it, such as deleting a connection and then `_DetachAndArmClosed` in one posted task; `Cancel` and `Close` on a channel only request events that may happen anyway, so they change nothing in the model but count as uses of the object.
- HTTP connector, surroundings: the log sink and `OnLog`, configuration, counters of statistics, the connect and response timers except as events that may happen, a second `Create`, and requests refused before the pool is consulted.
- HTTP connector, progress: `StoppedIsComplete` is about states in which nothing can move; that a scheduler gets there is not claimed.
- LifecycleCallbacks.NoCallAfterDestructor: assumes that a `Request` overlaps the destructor only if it is made from a callback on another thread, or that no channel is ever pooled; without both the exact condition is `LifecycleLate.LateCallIff`.
- LifecycleCallbacks.AnsweredOnce: which error code and text `OnHttpError` carries is not modelled.
- SmpParser.SMPParser.Parse: `Initialize` and `Cleanup` followed by reuse are not modelled, because they leave fields behind; allocation does not fail.
- SmpStream.SMPStream.SendPacket: the direct path through `PackData` for packets without a packed buffer, and queueing one packet object twice, are not modelled; a transport that claims more than it was offered is taken to have accepted nothing; a payload is below 2^32 bytes and the packed length is not truncated.
- SmpLink.Link.Read: bytes arrive complete and in order, which is the QUIC stream's contract; the 3-byte WebTransport mask of a first read is not modelled.
- DnsResponse.ResponseReadBack: the answers' names point backwards to a name in front of the answers, as servers write them; a pointer between answers is covered by `ResourceReadBack` alone.
- LifecycleTargets.AdoptsOwnTarget: the DNS and TLS settings are the connector's and the same for all its calls; a channel's physical interface is chosen when it is opened and not part of its key.
- DnsResolve.DnsResolver.Resolve: sockets, which of the servers answered, the merging of the A and AAAA answers, sorting, and `getaddrinfo` are the environment's; an answer's age counts from when it is stored.
- DnsName.DecodeQuestionName: `tolower` is that of the C locale.
- MasqueCodec.EncodeDatagram: a null payload with a length is not modelled; allocation does not fail.
- MasqueTunnel.StepInv: both queues are atomic per task; the QUIC library calls back only for a connection that is there, and not from inside `_CloseCheck`; the event queue's end, which is the tunnel's last word, is one step. Connections without MASQUE configured, and the tunnel's check of a datagram's ids, are not modelled.
- MasqueTunnel.DetachedIsFree: safety only; that a connection is freed eventually is not claimed, since `_CloseCheck` makes no progress from its initial state.
- HttpFragments.RunResponse: `llhttp` itself is not modelled; it is assumed to deliver a header as one or more name fragments and then one or more value fragments. Which limit is named in the message of a refusal may depend on the cut.
- HttpHead.HttpConnection.OnMessageComplete: pausing the parser at the end of the message is left to `llhttp`.
- HttpRequestText.BuildRequestText: header names that differ only in case are allowed, as in the source's map.
- `SocketPinner`, `NetworkRouteLookup`, `SSLayer`, `TlsContext`, `Runtime`, `UDPSender`, the server side, the WebSocket connector and the language bindings: I/O and plumbing.
