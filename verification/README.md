# Verified models of Trapchat's protocols

Trapchat is an encrypted chat made of a browser client, a Go gateway, a Rust relay and a JavaScript
job worker. This project models the parts whose correctness depends on whole runs, and proves what
those runs keep. `dafny verify dfyconfig.toml` checks everything.

Each component is a state machine on values with proofs over all runs. Code that
changes objects in place is also written as a class; every method of it is
proved to take exactly the step that the state machine describes, so what is proved of runs holds of the
objects. A class of a component in which several tasks take turns keeps their program counters as ghost fields.

| files | component |
|---|---|
| `RelayRegistry`, `RelayInvariant`, `RelayTheorems`, `RelayShutdown` | The relay's two-level room registry. A task's program counter moves one lock section at a time; rooms are identities, because a joiner may hold a room that is no longer mapped. |
| `RelayFanOut`, `RelayOrder`, `RelayDelivery` | The peers' bounded channels beside that registry, in the same schedules. Fan-outs to one room overlap, member by member, and evict slow consumers afterwards: what a member receives, exactly what it can miss, and in which order. |
| `RelayAlone`, `RelaySpeech` | What a join, a leave, a hang-up and a message do when no other task moves, in terms of a plain map from names to members; that channels are emptied onto the wire. |
| `RelayRuns` | Runs in which a member has a gap, and in which two members receive in opposite orders. |
| `RelayTasks` | The lock sections as methods on shared room objects that can outlive their names. |
| `IpLimiter` | The relay's sliding window per IP address against the full history of accepted calls. |
| `TokenBucket` | The gateway's token buckets: how much any window lets through, and who is never refused. |
| `TokenCredit` | Who is granted, by the calls alone: a bucket gains the rate at every full interval since it was made. |
| `Storage` | The gateway's in-memory store of rooms. |
| `Gateway`, `GatewayInvariant`, `GatewayTheorems`, `GatewayLimit`, `GatewayExpiry` | The gateway's membership tables beside the store, one section under one lock at a time: what every interleaving of joins, leaves, disconnects, clean-ups and sweeps keeps, and exactly when the rest fails. |
| `GatewayAlone` | What each request does when nothing runs between its sections. |
| `GatewaySweep` | That the expiry sweep is not early, and the schedule in which it clears a new room. |
| `GatewayWitnesses` | Schedules from the empty state in which it does fail. |
| `GatewayServer` | The gateway's functions as methods; where a lock is free, other tasks' sections run. |
| `MediaTransfer`, `MediaReassembly`, `MediaCopies` | Files cut into encrypted chunks and put together again, with handleChunk in the two sections that its await makes of it. |
| `MediaTimers` | How long a transfer lives, and what is let into it. |
| `MediaReceiver`, `WorkerChunks` | The receiver's object; the worker's cutting loop. |
| `WorkerQueue`, `WorkerTheorems`, `WorkerOrder`, `WorkerManagers` | The job queue with retries, backoff and dead letters; in which order jobs are taken. |
| `FrameCodec` | Binary frames: slice decoder, streaming reader, and their agreement. |
| `HmacPreimage` | The length-prefixed input of the gateway's HMAC. |
| `SocketClient`, `SocketTheorems`, `SocketReconnect`, `SocketObject` | The client's connection: sends, the offline queue, reconnecting. |
| `SocketRooms`, `SocketOutage` | Which rooms are joined, how often it tries to reconnect and what ever goes out, by the events alone; how an outage is repaired. |
| `SaltAgreement`, `SaltTheorems`, `SaltWitnesses`, `SaltDelivery`, `RoomKeys` | How the members of a passphrase room come to one key, with announcements of its salt that are read and sent while the room changes; exactly when they do, and runs in which they do not. |
| `KeyRotation`, `RotationOrder`, `Rotators` | Key rotation by one side, with a grace period. |
| `Options`, `Arith`, `BigEndian`, `Seqs`, `Sets` | Shared: an option datatype, a minimum, four-byte numbers, sequences, sizes of sets. |

Clocks, random ids, keys and salts, and what jobs and networks do, are parameters or events. An instant read
twice within one call (`time.Now` followed by `time.Since`, say) is one reading.
AES-GCM, PBKDF2 and HMAC are ideal: an envelope opens under its own key and no other, a derived key
is the pair of its inputs, and a signature is a function of its preimage (section 2 of RFC 2104).

## Where code and comments differ

- The relay's `current_room` does not imply membership. `MembershipLostExactlyWhenDisturbed` gives the
  branches that break it, and `RoomCanSplit` a run in which two connections with the same current room
  are in different room objects.
- A slow consumer of the relay that is about to be evicted can receive a later message before it is
  (`MemberCanHaveGap`); nobody else misses anything for good (`MissesExactlyWhatIsOutstanding`).
- The relay's fan-outs to one room share its read lock, so two members can receive two messages in opposite orders
  (`OppositeOrders`). Those of one sender keep their order everywhere (`SenderOrderKept`), and so do any two of which one
  had been offered to everybody when the other began (`OrderFollowsEnds`).
- The gateway's locks are taken one after the other. A peer can be stored in a room that its record does not
  have, and stay stored after it has disconnected (`StoredForGood`), exactly if a clearing of the room ran between
  the two writes of its join (`CoverageLostExactlyWhen`). The converse fails too (`BadSaltIsRecorded`,
  `ClearedTwiceIsRecorded`), exactly as `RecordsPartExactlyWhen` says.
- The limit of 10,000 rooms, which the code itself calls racy, can be passed (`LimitCanBePassed`), exactly by a join
  that stores a new room when there are as many (`LimitPassedExactlyWhen`), and by no more than the joins past its test
  at one time, less one (`RoomsBounded`). A join that nothing interrupts keeps it (`UninterruptedJoinIsSafe`).
- A room can outlive its time to live (`LateJoinKeepsRoom`), exactly if somebody joins it after the sweep has listed
  its members (`SweepLeavesExactlyWhen`, `OverdueRoomsJoinedLate`).
- The sweep takes members out of a room whose time is not over, if the room was deleted and founded again since it was
  listed (`SweepClearsNewRoom`), and exactly then (`SweepsLapsedExactlyWhen`).
- A token bucket of rate 0, which the gateway never configures, is refilled by pruning
  (`PruningRefillsAtRateZero`); the bounds ask for a rate and an interval of at least 1.
- `handleChunk` awaits between its duplicate test and its store. Two copies of one chunk past the test together are both
  counted, and the transfer fails on a hole when the count reaches the total (`OverlappingCopiesFail`). A file is handed
  over exactly if that does not happen (`CompletesExactlyWhen`).
- `client.js` says it reconnects only after a successful connection, but `onerror` settles the promise
  too, so a failed first connection is retried (`FailedFirstConnectionRetries`).
- Its queue is lost when the open event of a replaced socket runs (`SecondConnectLosesQueue`), as after two
  calls of `connect` in a row. `DroppedExactlyWhen` gives the exact condition, and no message is lost when there
  is one connection at a time.
- A client that has finished handling a presence with a salt need not hold the room's key
  (`FinishedIsNotEnough`). It does exactly when no derivation is pending, if no stale presence was handed to it.
- A presence carries the salt that was read before its recipients were. When the room is deleted and founded again in
  between, a member of the new room takes over the old salt, for good (`StaleAnnouncementMisleads`, `KeyIsFinal`), and
  another with the same passphrase gets another key (`SamePassphraseOtherKey`). All that a member is told is its room's
  salt exactly if no presence read under an earlier founding with another salt is handed to it (`OwnSaltsExactlyWhen`);
  it is enough that no such announcement has yet to read its peers when the room is founded (`QuietFoundingsSuffice`).
- The worker accepts a chunk size that is not a number, and then loses the payload (`SplitForRoom`).
- Between the rotator's switch to a new key and the sending of the rotation message there is an `await`, in
  which something sealed under the new key can overtake it (`NewKeyOvertakes`). It opens exactly if the new key has
  been accepted.
- `SignHMAC` writes a length modulo 2^32, so preimages collide for fields of 4 GiB (`PreimageCollidesAtFourGiB`).

## Model

| member | source | states |
|---|---|---|
| RelayInvariant.NextKeepsInv | services/relay/src/main.rs:352-514 | Every lock section of every task, in any state satisfying it, keeps the invariant: members have not begun to remove themselves, an empty mapped room has an obliged task, the caps hold, the map's writer is the task about to remove a name |
| RelayInvariant.EvictionLeavesObliged | services/relay/src/main.rs:555-561 | A room emptied by evicting slow consumers is still in the care of one of them |
| RelayInvariant.RoomStepKeepsInv | services/relay/src/main.rs:389-404 | A section under one room's lock keeps the invariant if its task keeps its obligations to other rooms and leaves this one in somebody's care |
| RelayInvariant.UnmapKeepsInv | services/relay/src/main.rs:498-502 | Removing a name after the second look, still under the map lock, orphans nobody's obligation |
| RelayInvariant.RecheckKeepsInv | services/relay/src/main.rs:498-501 | The second look under the map's write lock: whoever gives up leaves the empty room to another obliged task |
| RelayInvariant.RunKeepsInv | services/relay/src/main.rs:226-514 | The invariant over every interleaving |
| RelayTheorems.MappedRoomHasObligedTask | services/relay/src/main.rs:464-514 | Under the invariant every mapped room, so also an empty one, has a task with it as current room and not past removal, or mid-cleanup of that name, or mid-join holding that room |
| RelayTheorems.EndedLeavesNoRoom | services/relay/src/main.rs:456-460 | When all connections have ended, the map is empty: no room leaks |
| RelayTheorems.MemberOnlyOfCurrentRoom | services/relay/src/main.rs:389-405 | A connection is a member of at most one mapped room, its current room or the one it has just inserted itself into |
| RelayTheorems.CapsHold | services/relay/src/main.rs:361-392 | At most 10,000 mapped rooms and 50 members in any room object, orphaned ones included |
| RelayTheorems.MembershipLostExactlyWhenDisturbed | services/relay/src/main.rs:352-429 | A step makes a settled connection's current room a room it is not in, if and only if it is one of four named branches |
| RelayTheorems.RoomCanSplit | services/relay/src/main.rs:373-405 | A reachable state with two connections of the same current room in different room objects |
| RelayShutdown.DrainingStepsDown | services/relay/src/main.rs:456-514 | Every step of a task that receives nothing new brings the system nearer its end |
| RelayShutdown.SomeStepIsPossible | services/relay/src/main.rs:464-514 | While some task has not ended, some step towards the end is enabled: no deadlock |
| RelayShutdown.DrainBounded | services/relay/src/main.rs:456-514 | A run without new requests is no longer than the steps left |
| RelayShutdown.ShutdownEmptiesMap | services/relay/src/main.rs:456-514 | Whenever such a run cannot go on after all connections hung up, the map is empty |
| RelayAlone.JoinAlone | services/relay/src/main.rs:352-405 | With no other task moving, a join takes the connection out of its room, whose last member takes it with it, and puts it into the new one exactly if that has fewer than 50 members, or is new with fewer than 10,000 rooms |
| RelayAlone.LeaveAlone | services/relay/src/main.rs:423-429 | And a leave takes it out of its room |
| RelayAlone.HangupAlone | services/relay/src/main.rs:456-460 | And so does the end of the connection |
| RelayTasks.Relay.FindOrCreate | services/relay/src/main.rs:359-388 | The section of the join arm that finds or creates the room is the model's step |
| RelayTasks.Relay.Insert | services/relay/src/main.rs:389-405 | The section that inserts the peer, or refuses at 50 members |
| RelayTasks.Relay.FindToLeave | services/relay/src/main.rs:465-471 | leave_room's map read: a handle on the room, which is kept when the lock is gone |
| RelayTasks.Relay.RemoveSelf | services/relay/src/main.rs:473-477 | leave_room's room write, on a room that may have lost its name |
| RelayTasks.Relay.Peek | services/relay/src/main.rs:487-496 | leave_room's quick check without the write lock |
| RelayTasks.Relay.RemoveIfEmpty | services/relay/src/main.rs:497-502 | leave_room's second check and the removal of the name under one write lock are two steps in a row |
| RelayTasks.Relay.FindToFanOut | services/relay/src/main.rs:517-523 | fan_out_msg's map read |
| RelayTasks.Relay.BeginLoop | services/relay/src/main.rs:535-539 | The room is taken for reading, and its members but the sender are to be offered the message |
| RelayTasks.Relay.TrySend | services/relay/src/main.rs:540-549 | One try_send: accepted exactly if the channel is open with fewer than 256 items |
| RelayTasks.Relay.SendToMembers | services/relay/src/main.rs:535-553 | The loop of try_send over the room's members but the sender, with any steps of others that its read lock allows before every turn and at the end: a run of the model, at whose end exactly those it failed for are to be evicted |
| RelayTasks.Relay.Evict | services/relay/src/main.rs:555-561 | The loop that removes stale consumers from the room object |
| RelayFanOut.StepKeepsSound | services/relay/src/main.rs:352-562 | Every lock section, single try_send, notice, write and channel closing keeps: a member has got every fan-out due to it, but exactly those that are still to be offered to it or for which it is still to be evicted |
| RelayFanOut.OutstandingStays | services/relay/src/main.rs:535-561 | Over every step that leaves the peer a member, what was outstanding for it stays so until it is sent, and nothing begun before becomes outstanding |
| RelayFanOut.RunKeepsSound | services/relay/src/main.rs:352-562 | The same over every schedule, overlapping loops included |
| RelayOrder.StepKeepsOrdered | services/relay/src/main.rs:535-553 | Every step keeps: nothing comes in twice, nor before a fan-out that had been offered to everybody when it began; a sender's fan-outs do not overlap |
| RelayOrder.RunKeepsOrdered | services/relay/src/main.rs:535-553 | The same over every schedule |
| RelayDelivery.MissesExactlyWhatIsOutstanding | services/relay/src/main.rs:516-562 | In every reachable state a member of any room object has received fan-out k of another since its insertion if and only if k is not still to be offered to it and no task that failed to send it k is still about to evict it |
| RelayDelivery.UndisturbedMemberGetsAll | services/relay/src/main.rs:535-553 | A member that no task has still to come to, nor to evict, has received every fan-out due to it |
| RelayDelivery.OrderFollowsEnds | services/relay/src/main.rs:535-553 | A peer never receives a message twice, and receives one begun earlier after one begun later only if the earlier had not been offered to everybody when the later began |
| RelayDelivery.SenderOrderKept | services/relay/src/main.rs:535-553 | What one sender sends is received by every peer in the order of sending |
| RelayDelivery.SenderSharesRoom | services/relay/src/main.rs:418-422 | A fan-out goes to the room the sender's current_room names, and to a peer with another current_room only if that room is no longer mapped |
| RelayDelivery.WireIsPrefixOfAccepted | services/relay/src/main.rs:535-553 | What the write task has taken and what waits in the channel of at most 256 are together what was accepted, in order |
| RelaySpeech.SayAlone | services/relay/src/main.rs:516-562 | With no other task moving, a message goes to each other member of the room whose channel is open and holds fewer than 256 items, the others are evicted, and nothing else changes |
| RelaySpeech.AllIsWritten | services/relay/src/main.rs:257-266 | While the write task goes on, everything accepted is written |
| RelaySpeech.QueueIsLoad | services/relay/src/main.rs:540-549 | Over any run a channel holds the offers and notices that found room, less what was written, and is closed exactly by its sink's failure |
| RelayRuns.MemberCanHaveGap | services/relay/src/main.rs:535-561 | A reachable state in which a member has the second fan-out and not the first |
| RelayRuns.OppositeOrders | services/relay/src/main.rs:535-553 | A reachable state in which two members have received two senders' messages in opposite orders |
| IpLimiter.RecentTwice | services/relay/src/main.rs:110-110 | Dropping old instants now or earlier comes to the same |
| IpLimiter.DecidesAsHistory | services/relay/src/main.rs:99-116 | The kept window decides as the whole history of accepted calls would |
| IpLimiter.NextKeepsValid | services/relay/src/main.rs:90-127 | Every call and prune keeps the agreement with history and at most 100,000 entries |
| IpLimiter.LimiterOverRuns | services/relay/src/main.rs:99-127 | Over any run, allow answers true exactly if the address is tracked or there is room and fewer than 10 accepted calls of it lie in the last second; and any one second has at most 10 accepted calls of one address |
| IpLimiter.AnsweredExactlyWhen | services/relay/src/main.rs:99-127 | Over any calls and prunes, by the answers alone: a call is answered true if and only if the address is tracked or fewer than 100,000 are, and fewer than 10 of its calls of the last second were answered true |
| IpLimiter.TenASecond | services/relay/src/main.rs:99-116 | So at most 10 calls of an address are answered true in any second |
| IpLimiter.TableIsTracked | services/relay/src/main.rs:119-126 | The table keeps the addresses that have called while there was room, but for those without a true answer in the second before a later prune |
| IpLimiter.IpRateLimiter.Allow | services/relay/src/main.rs:99-116 | The method on the table of buckets; its answer is the one those are about |
| IpLimiter.IpRateLimiter.Prune | services/relay/src/main.rs:119-126 | The two nested retains |
| TokenBucket.RefillKeepsBudget | services/gateway/cmd/gateway/main.go:170-184 | A refill that keeps the remainder creates no tokens: tokens now and to come until any later instant do not grow |
| TokenBucket.PruneKeepsBudget | services/gateway/cmd/gateway/main.go:137-152 | Forgetting an idle bucket, recreated full later, creates none either, because of the prune threshold |
| TokenBucket.GrantedWithinBudget | services/gateway/cmd/gateway/main.go:163-191 | Over any run a peer is granted no more than its budget |
| TokenBucket.WindowBound | services/gateway/cmd/gateway/main.go:133-191 | In any window [t1, t2] at most burst + rate * (floor((t2 - t1) / interval) + 1) calls of a peer are granted, prunes included |
| TokenBucket.AllowAccounted | services/gateway/cmd/gateway/main.go:163-191 | A conforming call is granted and leaves tokens for what the rate still permits |
| TokenBucket.ConformingNeverRefused | services/gateway/cmd/gateway/main.go:163-191 | With burst at least rate, a peer with at most rate calls in every half-open window of one interval is never refused |
| TokenBucket.GatewayLimitsServeConforming | services/gateway/cmd/gateway/main.go:332-334 | So for the gateway's three limiters |
| TokenCredit.TokensFollowCalls | services/gateway/cmd/gateway/main.go:137-197 | After any calls, prunes and removals a peer has a bucket exactly if it has called since that was last forgotten, with the tokens those calls have left of a burst and the rate for every full interval since the first |
| TokenCredit.GrantedExactlyWhen | services/gateway/cmd/gateway/main.go:163-191 | So a call of anybody is granted if and only if it finds a token by that account |
| TokenCredit.WaitIsRewarded | services/gateway/cmd/gateway/main.go:172-184 | In any state a call an interval or more after the last refill is granted |
| TokenCredit.SpentBucketGives | services/gateway/cmd/gateway/main.go:172-191 | n intervals after its last refill an empty bucket gives the smaller of a burst and n times the rate, and no more |
| TokenBucket.PruningRefillsAtRateZero | services/gateway/cmd/gateway/main.go:142-153 | With a rate of 0 an empty bucket grants nothing, but does after pruning has forgotten it |
| TokenBucket.RateLimiter.Allow | services/gateway/cmd/gateway/main.go:163-191 | The method on the map of buckets |
| TokenBucket.RateLimiter.Prune | services/gateway/cmd/gateway/main.go:142-153 | One pass of the prune loop |
| TokenBucket.RateLimiter.Remove | services/gateway/cmd/gateway/main.go:193-197 | The bucket of a closed connection |
| Storage.Store.JoinWithTTL | pkgs/go/storage/storage.go:38-60 | The room is made on the first join with that join's time to live and salt, which later joins do not change |
| Storage.Store.Leave | pkgs/go/storage/storage.go:78-93 | The peer is out, and an empty room is deleted at once |
| Storage.StoreFollowsCalls | pkgs/go/storage/storage.go:38-120 | After any calls the rooms are those that somebody has joined and not left since, with these peers; salt, time to live and creation time are those of the join that found the room empty |
| Storage.Store.ExpiredRooms | pkgs/go/storage/storage.go:239-251 | The loop lists exactly the rooms with a time to live whose creation lies more than that many seconds back |
| GatewayInvariant.NextKeepsInv | services/gateway/cmd/gateway/main.go:1020-1174 | Every section of every task keeps: at most 5 recorded rooms a peer, recorded for live connections only; no empty stored room; a clearing task knows the members of its room, but for those that joined after it listed them |
| GatewayInvariant.RunKeepsInv | services/gateway/cmd/gateway/main.go:255-282 | The same over every schedule |
| GatewayTheorems.LimitsHold | services/gateway/cmd/gateway/main.go:1098-1107 | Whatever interleaves: at most 5 rooms a peer, records of live connections only, no stored room without a member |
| GatewayTheorems.CountZeroMeansAbsent | services/gateway/cmd/gateway/main.go:1094-1097 | The join arm's test of a zero count finds exactly the absent rooms |
| GatewayTheorems.CoverageLostExactlyWhen | services/gateway/cmd/gateway/main.go:1123-1147 | A stored member has the room in its record or is about to leave the store: lost in a step if and only if a join stores a peer whose record a clearing has taken since it was written |
| GatewayTheorems.StoredMeansRecorded | services/gateway/cmd/gateway/main.go:1020-1175 | In any schedule without such a step, whoever is stored when all tasks rest is a live connection that has recorded the room |
| GatewayTheorems.RecordsPartExactlyWhen | services/gateway/cmd/gateway/main.go:256-276 | A recorded room is stored, or about to be stored or forgotten: lost in a step if and only if a join with a bad salt has written its record, or a clearing takes a member out of the store whose record it did not take |
| GatewayLimit.ClaimsShrink | services/gateway/cmd/gateway/main.go:1093-1147 | Rooms stored or wanted by a join past its test: no section but the test itself adds one |
| GatewayLimit.RoomsBounded | services/gateway/cmd/gateway/main.go:1093-1147 | In any schedule with at most k joins past the test of the limit at one time there are never more than 9,999 + k rooms |
| GatewayTheorems.UninterruptedJoinIsSafe | services/gateway/cmd/gateway/main.go:1092-1147 | A join with no other task's section in between keeps coverage and the limit |
| GatewayAlone.JoinAlone | services/gateway/cmd/gateway/main.go:1092-1147 | A join that nothing interrupts: no place without a room or room for one (10,000; five a peer); else recorded, and with no salt or one of 32 bytes stored, a new room with one of four times to live or none |
| GatewayAlone.LeaveAlone | services/gateway/cmd/gateway/main.go:1163-1172 | A leave takes the peer out of the room, an emptied room away and the room out of the record |
| GatewayAlone.DisconnectAlone | services/gateway/cmd/gateway/main.go:1020-1042 | A disconnect takes away the connection, its record, and the peer from every room of it |
| GatewayAlone.CleanAlone | services/gateway/cmd/gateway/main.go:901-910 | A clean-up takes the whole room away, the room out of the records of its connected members, and the connections of those with no other room; nothing else |
| GatewayAlone.SweepAlone | services/gateway/cmd/gateway/main.go:619-649 | A sweep that nothing interrupts takes away exactly the rooms whose time to live is over |
| GatewayTheorems.StepKeepsIncarnation | pkgs/go/storage/storage.go:42-60 | A room's time to live, creation time and salt never change while it exists |
| GatewayTheorems.AdvertisedExpiryIsFixed | services/gateway/cmd/gateway/main.go:1435-1438 | Every expiry instant advertised for one incarnation is the same |
| GatewayExpiry.SweepLeavesExactlyWhen | services/gateway/cmd/gateway/main.go:255-282 | After the sweep's last section for a room the room is still stored if and only if a peer joined after its members were listed |
| GatewayExpiry.OverdueRoomsJoinedLate | services/gateway/cmd/gateway/main.go:619-649 | With the loop at rest and a sweep in the last 30 s, a room older than its time to live and 30 s has only members that joined after that sweep had listed its members |
| GatewayExpiry.NoRoomOutlivesItsTtl | services/gateway/cmd/gateway/main.go:619-649 | So in schedules without such joins no room is older than that |
| GatewaySweep.ListsAsAdvertised | pkgs/go/storage/storage.go:239-251 | The sweep lists no room before the instant that the room advertises, and every room from the next millisecond on |
| GatewaySweep.SweepsLapsedExactlyWhen | services/gateway/cmd/gateway/main.go:619-649 | In any schedule a room that the sweep has still to deal with was over when it was listed if and only if it was founded before that |
| GatewaySweep.MembersGoWhenOver | services/gateway/cmd/gateway/main.go:619-649 | A section of the sweep takes a member out of a room only after the end of its time to live and the instant advertised, unless the room was founded since the listing |
| GatewaySweep.SweepClearsNewRoom | services/gateway/cmd/gateway/main.go:630-647 | A reachable state in which the sweep is about to take a member out of a room founded a moment ago |
| GatewayWitnesses.StoredForGood | services/gateway/cmd/gateway/main.go:1123-1147 | A schedule after which a disconnected peer is stored in a room for which nobody has a record, and every task is at rest |
| GatewayWitnesses.BadSaltIsRecorded | services/gateway/cmd/gateway/main.go:1123-1141 | A schedule after which a peer has recorded a room that does not exist: a join with a bad salt |
| GatewayWitnesses.ClearedTwiceIsRecorded | services/gateway/cmd/gateway/main.go:262-272 | Another one: a peer taken out of conns with its last room joins one more, which is then cleared |
| GatewayWitnesses.LimitCanBePassed | services/gateway/cmd/gateway/main.go:1093-1097 | A schedule with 10,001 rooms |
| GatewayWitnesses.LateJoinKeepsRoom | services/gateway/cmd/gateway/main.go:629-648 | A schedule in which a room is older than its time to live and 30 s although the loop has just swept |
| GatewayServer.Server.HandleJoin | services/gateway/cmd/gateway/main.go:1092-1147 | The join arm, section by section with others in between; true exactly if the peer joined the room in the store during the call |
| GatewayServer.Server.HandleLeave | services/gateway/cmd/gateway/main.go:1163-1174 | The leave arm; at its end the peer is neither stored in the room nor has it recorded, whatever ran between |
| GatewayServer.Server.Disconnected | services/gateway/cmd/gateway/main.go:1020-1040 | The deferred clean-up: the records at once, then the loop over the rooms, each under its own lock |
| GatewayServer.Server.DisconnectAllPeers | services/gateway/cmd/gateway/main.go:255-282 | The loop over the members as listed once; who is still stored at its end joined after the listing |
| GatewayServer.Server.Cleanup | services/gateway/cmd/gateway/main.go:901-908 | The clean-up request for a room, with the last leave under an id of its own |
| GatewayServer.Server.ExpiryTick | services/gateway/cmd/gateway/main.go:630-647 | One sweep, room by room, with other tasks' sections in between; what it lists is exactly what is over |
| FrameCodec.DecodeOfEncode | pkgs/rust/io/src/frame.rs:20-67 | decode gives back an encoded frame with non-zero type, and how much it took, whatever follows |
| FrameCodec.EncodeOfDecode | pkgs/rust/io/src/frame.rs:36-67 | A decoded frame encodes to the bytes it was decoded from |
| FrameCodec.EncodeIsLayout | pkgs/rust/io/src/frame.rs:17-37 | An encoding is the type, the length in four bytes with the most significant first, and the payload; refused exactly over 1 MiB |
| FrameCodec.DecodesExactlyWhen | pkgs/rust/io/src/frame.rs:40-72 | Bytes decode to a frame if and only if they begin with that layout of it, of at most 1 MiB and of a type other than 0 |
| FrameCodec.RefusesOthers | pkgs/rust/io/src/frame.rs:40-68 | Which error other bytes give |
| FrameCodec.DecodeAllEnds | pkgs/rust/io/src/reader.rs:58-80 | Frames and then bytes that are none: the frames, then nothing if those are too few, else the error, up to the limit |
| FrameCodec.DecodeAllOfEncodeAll | pkgs/rust/io/src/reader.rs:58-80 | On concatenated encodings of valid frames of non-zero type the reader's results are those frames, up to its cap |
| FrameCodec.EncodeAllInjective | pkgs/rust/io/src/frame.rs:20-33 | Different lists of such frames have different encodings |
| FrameCodec.FrameReader.ReadFrame | pkgs/rust/io/src/reader.rs:22-56 | The streaming reader agrees with the slice decoder on every byte string |
| FrameCodec.FrameReader.ReadAll | pkgs/rust/io/src/reader.rs:63-80 | Exactly the frames of iterated decode, the same final error, silence at an incomplete tail, at most 10,000 results |
| HmacPreimage.PreimageInjective | pkgs/go/crypto/crypto.go:83-93 | Equal preimages have equal fields, each shorter than 2^32 bytes |
| HmacPreimage.PreimageCollidesAtFourGiB | pkgs/go/crypto/crypto.go:89-89 | Without that bound two different field lists have one preimage |
| HmacPreimage.DecimalInjective | services/gateway/cmd/gateway/main.go:1360-1370 | Different timestamps have different decimals |
| HmacPreimage.SignedEnvelopesAgree | services/gateway/cmd/gateway/main.go:1360-1370 | Equal preimages of envelopes force equal id, type, room, payload and timestamp |
| HmacPreimage.ReadsPreimage | pkgs/go/crypto/crypto.go:80-93 | Four bytes of length, the most significant first, and so many of a field, over and over: so the fields are read off the bytes |
| HmacPreimage.PreimageSays | services/gateway/cmd/gateway/main.go:1360-1370 | The bytes signed for an envelope say its id, its type, its room, its payload, and digits of its time, in this order |
| HmacPreimage.SignEnvelope | services/gateway/cmd/gateway/main.go:1360-1370 | What is hashed says so |
| HmacPreimage.SignHMAC | pkgs/go/crypto/crypto.go:83-93 | The loop over the fields feeds the MAC exactly the preimage |
| MediaTransfer.SendMedia | apps/trapchat/src/lib/media.js:87-112 | The loop sends exactly a file of at most 26,214,400 bytes, in pieces of 524,288 and a rest, each sealed and numbered, the description with the first |
| MediaReassembly.ChunksAreTheFile | apps/trapchat/src/lib/media.js:85-90 | The slices of a file, one after the other, are the file, and there are at most 50 |
| MediaTransfer.RunKeepsSound | apps/trapchat/src/lib/media.js:146-276 | Over any traffic every live transfer has one stale timer, there are at most 10, and no transfer object has more chunks than it has counted |
| MediaTimers.LivesUntilDue | apps/trapchat/src/lib/media.js:146-195 | Over any run a transfer lives from its first readable chunk, if fewer than ten lived then, until thirty seconds pass without another, it ends, or the assembler is destroyed |
| MediaTimers.ArrivalPlaced | apps/trapchat/src/lib/media.js:146-199 | A readable chunk of 1 to 100 with a place restarts the thirty seconds, and goes on exactly if its number has not been stored |
| MediaTimers.EndAnswers | apps/trapchat/src/lib/media.js:222-260 | Progress exactly before the count is reached; then too large exactly over 26,214,400 bytes, a failure exactly on a hole, else the chunks in order |
| MediaReassembly.ArrivedAnswers | apps/trapchat/src/lib/media.js:161-199 | A chunk that comes in, in any state holding part of the file, is refused exactly if it is stored, and otherwise waits |
| MediaReassembly.ResumedAnswers | apps/trapchat/src/lib/media.js:205-267 | A waiting chunk is stored and counted in whatever has been stored meanwhile, and answered with the file, a count, or a failure |
| MediaReassembly.OthersLeaveIt | apps/trapchat/src/lib/media.js:188-196 | Traffic under other ids, calls on objects that have lost their place and timers not yet due leave a transfer as it is |
| MediaReassembly.RunHolds | apps/trapchat/src/lib/media.js:146-268 | Until the file is handed over the assembler holds exactly the chunks that the run has stored, with their count |
| MediaReassembly.ReassemblyInvertsChunking | apps/trapchat/src/lib/media.js:146-268 | In any order, repeated, overlapping and interleaved: the answer is the original file and its description exactly if all chunks are stored and none twice, and a failure exactly if as many are stored but one twice |
| MediaReassembly.DuplicatesRefused | apps/trapchat/src/lib/media.js:198-199 | In any such run a chunk is refused exactly if a copy of it has been stored |
| MediaCopies.StoredTwiceExactlyWhen | apps/trapchat/src/lib/media.js:199-220 | A run stores a chunk twice if and only if at some moment two copies of it are past the duplicate test together and both go on |
| MediaCopies.CompletesExactlyWhen | apps/trapchat/src/lib/media.js:199-244 | So the call that brings the count to the total hands the file over if and only if no two copies of a chunk did so; otherwise it fails, and no later call completes the transfer |
| MediaCopies.OverlappingCopiesFail | apps/trapchat/src/lib/media.js:199-244 | A run of two overlapping copies of the first of two chunks, which fails |
| MediaCopies.SentFileArrives | apps/trapchat/src/lib/media.js:87-112 | What the sending loop sends, delivered in order to a receiver with a free place, gives the file with the last chunk |
| MediaReceiver.Assemble | apps/trapchat/src/lib/media.js:238-243 | The copying loop fills one buffer with the chunks in order, and fails exactly on a hole |
| MediaReceiver.TotalSize | apps/trapchat/src/lib/media.js:228-228 | The sum of the chunks present |
| MediaReceiver.MediaAssembler.Test | apps/trapchat/src/lib/media.js:146-199 | handleChunk up to its second await, on the two maps and a transfer object |
| MediaReceiver.MediaAssembler.Store | apps/trapchat/src/lib/media.js:205-267 | The rest of it, on the transfer object that the call has kept, in the map or not |
| MediaReceiver.MediaAssembler.Expire | apps/trapchat/src/lib/media.js:192-195 | A stale timer drops the transfer and itself |
| MediaReceiver.MediaAssembler.Destroy | apps/trapchat/src/lib/media.js:270-276 | Both maps are empty; waiting calls and their objects remain |
| WorkerChunks.SplitForRoom | services/worker/src/worker.js:23-39 | For any chunk size, infinite or not a number included: refused exactly without payload or positive size; the pieces concatenate to the payload exactly unless the size is not a number, all but the last within a byte of the size, and exact for a whole one, numbered, with the right total |
| WorkerChunks.CutCount | services/worker/src/worker.js:31-37 | There are as many as the length divided by the size, rounded up |
| WorkerQueue.NextConserves | services/worker/src/queue.js:9-41 | Enqueue, dequeue, success and failure keep each id in exactly one place |
| WorkerQueue.NextKeepsInv | services/worker/src/manager.js:32-57 | They also keep attempts, starts, delays and dead letters in agreement with the log |
| WorkerTheorems.JobsAreConserved | services/worker/src/queue.js:9-41 | In any run each enqueued id is waiting once, running, completed or dead, and in one of these only |
| WorkerTheorems.WaitingJobsHaveAttemptsLeft | services/worker/src/queue.js:33-41 | A waiting job has failed fewer than three times, as often as it was started |
| WorkerTheorems.NoJobStartsMoreThanThrice | services/worker/src/queue.js:33-41 | At most three starts of any job, and exactly three of a dead one |
| WorkerTheorems.RetriesWait | services/worker/src/manager.js:39-47 | A retry starts no earlier than 1000 * 2^(k-1) ms after the k-th failure |
| WorkerTheorems.DeadLettersAreNewest | services/worker/src/queue.js:62-76 | The dead letters are the newest at most 1000 of all final failures, in order |
| WorkerTheorems.BusySpends | services/worker/src/manager.js:33-56 | Every start and every end of a run lowers the starts left and the jobs running |
| WorkerTheorems.DrainIsBounded | services/worker/src/manager.js:33-56 | With nothing new enqueued only so many runs can start or end |
| WorkerTheorems.BackoffEnds | services/worker/src/manager.js:33-56 | After two seconds of idle polls the first waiting job is taken |
| WorkerOrder.WaitInOrder | services/worker/src/queue.js:9-41 | After any run jobs wait in the order in which they were put into the queue, new or again |
| WorkerOrder.TakesFirst | services/worker/src/queue.js:15-23 | A poll takes the first that is not in its backoff, and nothing if there is none |
| WorkerOrder.BacksOffExactly | services/worker/src/manager.js:39-47 | The backoff ends exactly a second after the first failure, two after the second |
| WorkerTheorems.DrainedMeansSettled | services/worker/src/manager.js:33-56 | With nothing waiting or running, every job has completed or is dead |
| WorkerManagers.Queue.Enqueue | services/worker/src/queue.js:9-13 | A new job goes to the end |
| WorkerManagers.Queue.Dequeue | services/worker/src/queue.js:15-23 | The first job out of its backoff leaves the queue and the others keep their order |
| WorkerManagers.Queue.Requeue | services/worker/src/queue.js:33-41 | One more attempt; back to the end, or to the dead letters at the third |
| WorkerManagers.Queue.Failed | services/worker/src/queue.js:43-77 | Pushing and shifting keeps the newest 1000 |
| WorkerManagers.WorkerManager.Retry | services/worker/src/manager.js:39-51 | The shared job object gets its delay after it is back in the queue |
| WorkerManagers.WorkerManager.Poll | services/worker/src/manager.js:35-52 | The inner loop ends, with nothing eligible left |
| WorkerManagers.WorkerManager.PollLoop | services/worker/src/manager.js:32-57 | The poll loop, stopped after any number of polls; after five for every start or end of a run that can still come, and five more, the queue is empty and every job has completed or is dead, whatever fails |
| SocketTheorems.SendKeepsInv | apps/trapchat/src/socket/client.js:90-116 | A send keeps the wire, the queue and the fates of all messages in agreement, at most 200 queued and 5 rooms |
| SocketTheorems.RejoinedJoins | apps/trapchat/src/socket/client.js:31-36 | Rejoining sends one join for each room in order and changes no room |
| SocketTheorems.Flush1KeepsTraced | apps/trapchat/src/socket/client.js:131-138 | One queued message more goes out, in order |
| SocketTheorems.NextKeepsInv | apps/trapchat/src/socket/client.js:21-171 | Every event keeps the invariant, old sockets and timers included |
| SocketTheorems.WireKeepsSendOrder | apps/trapchat/src/socket/client.js:90-138 | In any run chat and media on the wire are in order of send without repetition, and the others are exactly those overflowed, waiting, cleared or dropped |
| SocketRooms.RoomsFollowCalls | apps/trapchat/src/socket/client.js:90-99 | After any run the joined rooms are those with an accepted join and no leave or disconnect since, each once, with the payload of the latest join, in the order they came in; a join is refused exactly if five others are joined |
| SocketOutage.TriesFollow | apps/trapchat/src/socket/client.js:140-162 | Over any run the attempts are the retries since the last open or disconnect, at most 20, and the flag says whether the last one is yet to rejoin |
| SocketOutage.WireIsAllHanded | apps/trapchat/src/socket/client.js:26-138 | Over any run what went out is exactly what was sent while connected, and at each open the joins of a reconnect and the queue |
| SocketOutage.OutageIsRepaired | apps/trapchat/src/socket/client.js:26-162 | A lost connection, messages meanwhile, the timer and its socket's open: the joins of all rooms go out, then the first 200 messages, and the client is connected |
| SocketReconnect.OpenSends | apps/trapchat/src/socket/client.js:26-40 | The current socket's open event sends the joins if reconnecting, then the whole queue |
| SocketReconnect.OfflineKeepsTheFirst | apps/trapchat/src/socket/client.js:103-112 | Of any number of messages sent in a row without an open socket, exactly the first are queued, up to 200 with those queued before, and the rest lost; nothing is wired |
| SocketReconnect.OutageDeliversTheFirst | apps/trapchat/src/socket/client.js:26-40 | When the current socket then opens, exactly those first messages go out |
| SocketReconnect.DroppedExactlyWhen | apps/trapchat/src/socket/client.js:131-138 | A queued message is dropped exactly by the open event of a replaced socket, and cleared exactly by disconnect |
| SocketReconnect.NothingDropped | apps/trapchat/src/socket/client.js:26-40 | No message is dropped in a run where only current sockets open |
| SocketReconnect.ReconnectJoinsFirst | apps/trapchat/src/socket/client.js:140-171 | With one connection at a time nothing is dropped, and an automatic reconnect sends a join of each of at most 5 rooms before anything queued |
| SocketReconnect.FailedFirstConnectionRetries | apps/trapchat/src/socket/client.js:42-57 | A first connection that fails is retried, against the comment |
| SocketReconnect.SecondConnectLosesQueue | apps/trapchat/src/socket/client.js:21-40 | Two calls of connect in a row lose a message queued in between |
| SocketObject.TrapChatClient.Send | apps/trapchat/src/socket/client.js:90-116 | The method on the fields |
| SocketObject.TrapChatClient.FlushQueue | apps/trapchat/src/socket/client.js:131-138 | The loop is the model's flush |
| SocketObject.TrapChatClient.RejoinRooms | apps/trapchat/src/socket/client.js:32-34 | The loop over the joined rooms is the model's rejoining |
| SocketObject.TrapChatClient.OnOpen | apps/trapchat/src/socket/client.js:26-40 | The open handler |
| SocketObject.TrapChatClient.OnError | apps/trapchat/src/socket/client.js:42-48 | The error handler |
| SocketObject.TrapChatClient.OnClose | apps/trapchat/src/socket/client.js:50-57 | The close handler |
| SocketObject.TrapChatClient.AttemptReconnect | apps/trapchat/src/socket/client.js:140-162 | The reconnect decision |
| SocketObject.TrapChatClient.Disconnect | apps/trapchat/src/socket/client.js:76-84 | Rooms, queue and the remembered timer are cleared, and the socket closed |
| SaltAgreement.ReceivedKeeps | apps/trapchat/src/App.jsx:276-312 | Handling one message keeps chats in order, the key that of the last derivation ended, and a member told of no other salt on its way from its own to the room's |
| SaltAgreement.DerivedKeeps | apps/trapchat/src/App.jsx:293-312 | The end of a derivation does too, handling the queued chats under the new key |
| SaltAgreement.NextKeepsInv | services/gateway/cmd/gateway/main.go:1372-1454 | Joins, leaves, clean-ups, the reading of a salt, the reading of its recipients and the handing to each of them, in any order and with drops, keep every broadcast's salt that of the founding it was read under, and every member's account of what it was told |
| SaltTheorems.TellsOwnExactlyWhen | services/gateway/cmd/gateway/main.go:1427-1454 | A step makes a member's presences carry another salt than its room's if and only if it hands it a presence read under an earlier founding with another salt |
| SaltTheorems.OwnSaltsExactlyWhen | services/gateway/cmd/gateway/main.go:1372-1454 | Over any run all presences handed to a member carry its room's salt if and only if no such stale presence was handed to it |
| SaltTheorems.HoldsRoomKeyUnlessPending | apps/trapchat/src/App.jsx:282-312 | In any such run a member that has handled a presence with a salt holds the key derived from the stored salt if and only if no derivation is pending |
| SaltTheorems.SamePassphraseSameKey | apps/trapchat/src/hooks/useRoomManager.js:133-147 | Two such members share a key if and only if they have the same passphrase |
| SaltTheorems.ChatsKeepTheirOrder | apps/trapchat/src/App.jsx:302-377 | In any run no chat is lost or reordered by waiting for a key |
| SaltTheorems.ChatsWaitForTheKey | apps/trapchat/src/App.jsx:367-377 | Without stale presences none after the first presence with a salt is handled under another key than the room's |
| SaltTheorems.HoldsRoomKeyExactlyWhen | apps/trapchat/src/App.jsx:282-312 | In any run a member holds the room's key if and only if the derivation that ended last was for the room's salt, or none has ended and its own salt is the room's |
| SaltTheorems.KeyIsFinal | apps/trapchat/src/App.jsx:285-299 | A member without a passphrase or a derivation left keeps its key in every run, right or wrong |
| SaltTheorems.QuietFoundingsSuffice | services/gateway/cmd/gateway/main.go:1372-1454 | If, whenever the room is founded, no announcement of another salt has yet to read its peers, nobody is ever handed a stale presence |
| SaltTheorems.RoomSaltIsFixed | pkgs/go/storage/storage.go:38-74 | The salt a member joined under is the stored one as long as it is a member |
| SaltDelivery.PresenceComesToAll | services/gateway/cmd/gateway/main.go:1372-1454 | An announcement due comes to every peer of the room with the stored salt, if nothing is dropped |
| SaltDelivery.ChatComesToAll | services/gateway/cmd/gateway/main.go:1372-1399 | And so does a chat |
| SaltDelivery.EachIsAnnounced | services/gateway/cmd/gateway/main.go:1020-1174 | Over any run the announcements begun and due are as many as the joins and leaves |
| SaltDelivery.HandlesAll | apps/trapchat/src/App.jsx:276-377 | A client handles all it is handed, chats in order |
| SaltWitnesses.FinishedIsNotEnough | apps/trapchat/src/App.jsx:285-299 | A reachable member that has finished with a presence and holds its old key |
| SaltWitnesses.StaleAnnouncementMisleads | services/gateway/cmd/gateway/main.go:1439-1453 | A reachable member of a room founded with salt 2 that has settled on the key of salt 1, with nothing pending |
| SaltWitnesses.SamePassphraseOtherKey | services/gateway/cmd/gateway/main.go:1439-1453 | And a later member with the same passphrase and another key |
| RoomKeys.KeyRefs.BeginSetup | apps/trapchat/src/hooks/useRoomManager.js:140-144 | The passphrase branch up to its await fills the maps of salts and passphrases; a room set up again keeps its key, pending mark and waiting chats |
| RoomKeys.KeyRefs.FinishSetup | apps/trapchat/src/hooks/useRoomManager.js:145-146 | After the await the derived key is put in, whatever has happened to the room meanwhile |
| RoomKeys.KeyRefs.OnPresence | apps/trapchat/src/App.jsx:280-293 | The presence branch up to its await, for its room alone |
| RoomKeys.KeyRefs.OnDerived | apps/trapchat/src/App.jsx:293-311 | What follows the await, with the loop over queued chats |
| RoomKeys.KeyRefs.OnChat | apps/trapchat/src/App.jsx:367-377 | The chat branch |
| RoomKeys.KeyRefs.RemoveRoom | apps/trapchat/src/hooks/useRoomManager.js:166-169 | The three maps lose the room |
| KeyRotation.NextKeepsInv | apps/trapchat/src/lib/crypto.js:202-228 | The sections of a rotation between its awaits, acceptance, grace timers, sending and handling keep both sides within one key of each other and the previous key for 30 s |
| KeyRotation.AnnounceKeepsInv | apps/trapchat/src/lib/crypto.js:213-228 | When the new key is announced, everything in flight either way is under the key before it |
| KeyRotation.RotatingSideOpensAll | apps/trapchat/src/lib/crypto.js:230-243 | Everything the rotating side handles opens |
| KeyRotation.RotationsOpen | apps/trapchat/src/hooks/useKeyRotation.js:42-65 | Every rotation message opens at the other side |
| KeyRotation.OpensOnceAccepted | apps/trapchat/src/hooks/useKeyRotation.js:42-65 | Anything else opens there if and only if its key has been accepted |
| KeyRotation.OnlyTwoKeysOpen | apps/trapchat/src/lib/crypto.js:230-243 | In any run nothing opens on a side but under its newest key or the one before |
| KeyRotation.PreviousKeyOpensForGrace | apps/trapchat/src/lib/crypto.js:202-211 | In any run the other side keeps the key before until the timer due half a minute after the acceptance |
| RotationOrder.EverythingOpens | apps/trapchat/src/hooks/useKeyRotation.js:16-65 | If nothing is encrypted while a rotation message is, nor handled while a key is imported, everything opens on both sides |
| RotationOrder.NewKeyOvertakes | apps/trapchat/src/hooks/useKeyRotation.js:16-26 | A run in which something under the new key arrives before it |
| Rotators.KeyRotator.AcceptKey | apps/trapchat/src/lib/crypto.js:202-211 | The new key is current, the old one previous for 30 s |
| Rotators.KeyRotator.BeginRotation | apps/trapchat/src/lib/crypto.js:213-216 | A rotation begins by keeping the current key as the previous one, and hands it out |
| Rotators.KeyRotator.Switch | apps/trapchat/src/lib/crypto.js:216-217 | The generated key is the current one |
| Rotators.KeyRotator.BeginGrace | apps/trapchat/src/lib/crypto.js:221-227 | The grace period begins once the key is announced |
| Rotators.KeyRotator.Decrypt | apps/trapchat/src/lib/crypto.js:230-243 | Opens exactly what is sealed under the current or the previous key |
| Rotators.KeyRotator.Stop | apps/trapchat/src/lib/crypto.js:182-191 | Both timers stop and both keys stay |
| Rotators.RotationHook.OnRotate | apps/trapchat/src/hooks/useKeyRotation.js:16-26 | The hook's key becomes the rotator's, and the message carries the new key under the one kept since the rotation began |
| Rotators.RotationHook.OpenRotation | apps/trapchat/src/hooks/useKeyRotation.js:42-46 | A rotation message opens exactly under the current or the previous key, and changes nothing yet |
| Rotators.RotationHook.AcceptRotation | apps/trapchat/src/hooks/useKeyRotation.js:47-51 | The imported key becomes the hook's and the rotator's current one, whatever they hold by then |

## Left out

- Relay: presence broadcasts and error replies are bare notices in the channels. The relay's limit on connections,
  authentication and room-name checks.
- Gateway: nicknames, presence broadcasts, room lists, `SetRoomTTL` (never called), the life cycle of a peer's send
  channel, HTTP handlers other than clean-up, and forwarding to relays. A `Room` and a `tokenBucket`, which the Go code
  changes through pointers, are values in their maps.
- GatewayServer.Server.Interleave: stands for any schedule of other tasks' sections by its `ensures` alone; its body is empty.
- RelayTasks.Relay.Interleave: likewise, for those that a held read lock lets run.
- IpLimiter, FrameCodec: capacity and shrinking of vectors, and how `read_exact` splits its reads.
- Media: totals that disagree within one transfer (the model follows the code there, no theorem is about them). File-name
  cleaning and type sniffing are parameters.
- WorkerChunks.SplitForRoom: sizes are added up exactly; the rounding of doubles is left out.
- Worker: what jobs do, forwarding pieces to the gateway, error summaries of dead letters.
- WorkerManagers.WorkerManager.PollLoop: no job is enqueued while it runs, and there is one loop; new jobs in between and two
  loops at once are covered by the state machine only.
- Client: listeners are assumed not to send from within `open`; `sendRaw`, peer-to-peer events, message parsing
  and the length of the jittered delay are not modelled.
- Salt agreement: each client joins once, its key set up before, and derivations do not fail. Keys from share links are
  numbers and never change; a room joined again and a key rotated meanwhile are not covered. A chat's recipients are read
  when it is sent.
- Key rotation: one side rotates. `App.jsx` encrypts
  and decrypts chat with its own map of keys, which rotation does not update, so the theorems are about what the hook's key and rotator
  seal and open, as the documentation of both describes. A rotation that fails to generate or export a key, and a message
  that comes in when the hook has no rotator. The two attempts of `KeyRotator.decrypt` are one step.
- HMAC: SHA-256, and the comparison in `VerifyHMAC`.
- Everything else: views, calls, WebRTC, notifications, TLS, origins, health and metrics.
