# Whiteboard verification

A Dafny model of the whiteboard backend and of the part of its browser client that reconciles
state, with proofs of the properties its design documents and comments promise. Check it with
`dafny verify dfyconfig.toml`.

## The model

Four interacting parts are modelled, and the theorems that join them are proved.

**The sequencer and its two brokers.** `Sequencer` is the abstract board: a counter and a map
from shape id to (sequence number, shape), defined as a fold over a log of operations.
`MemoryBroker.Memory` is the in-process broker updating its maps in place. `RedisBroker` holds a
keyspace of strings and hashes; `Server` runs the two scripts, `Redis` is the Go client over it,
and `Decimal` is the printing and parsing both sides rely on, including how Lua prints a number
once it no longer fits 14 digits. `TornSnapshots` is what the two-read snapshot returns when other
calls run in between. `Tombstones` is the merge the design says it can do without.

**The hub, its boards and its connections.** `System` is a state machine with any number of hubs
sharing one broker and one store, any number of boards (an id may be reopened while an older
incarnation is still draining) and any number of connections, each a program counter inside
`Serve`. One step is one critical section, one rendezvous on an unbuffered channel, or one broker
or store call of one goroutine. Timeouts, lost connections and full queues are steps that may
happen at any time. `Registry.Hub` is the mutex-protected code itself.

**The fan-out.** `BoardActor` is the board goroutine's code over mutable clients with bounded
queues, including the write pump, with ghost histories of everything enqueued and written.

**Durability and the browser.** `SnapshotStore` is the seq-guarded store,
`PersistenceCoordinator` the code between broker and store, `Browser` the shape map of the web
client. `Durability` ties broker, store and everything in flight each to the log of operations it
stands for, in every reachable state, whatever is saved and restarted when. A broker restart needs
only that nobody is connected; saves may be in flight across it and land at any later time.

Invariants are split by concern (`Lifecycle`, `Channels`, `Accounting`, `Durability`,
`Checkpointing`); `Runs` puts them together and states what holds in every reachable state and
along every run. `Coverage`, `Departures`, `Handovers` and `Naming` are four more, put together by
`Conduct`, which says what runs do for those who use the system. `Programs` compares the steps of
every goroutine with the order that `Serve`, `run` and `Shutdown` prescribe. `Alignment` says which landings of a save are harmless and what then keeps the
durable log and the broker's history in step; `SoundRuns` is durability along the runs without a
harmful landing; `Restarts` proves that harmless is exactly right, and when a restart makes all
later landings harmless. `Drain` proves progress of one board, `ShutdownProgress` decides when a
session or a whole shutdown can still come to its end, and `FinalCheckpoint` what a final snapshot
covers; `Reconciliation` joins a browser to the running system and `FanOutToBrowser` joins it to
the queue of its connection; `Witnesses` gives concrete runs for what shutdown does not guarantee.

### Results that qualify the design's claims

- A client converges exactly when every shape it sees settles (`Browser.ConvergesIffSettled`).
  Deletes carry no sequence guard, so a stale write that arrives late brings a shape back
  (`Browser.StaleWriteResurrects`); without deletes any order works.
- A create or update without a body is stored by the broker and ignored by every browser. Some
  delivery still makes a client agree with the broker if and only if no shape changed since its
  snapshot ends with such a write (`Browser.SomeDeliveryConvergesIff`).
- `internal/hub/client.go:137-139` says that an operation published after the registration is
  reconciled by sequence number. The browser clears its map when the snapshot arrives, so an
  operation sequenced after the snapshot was read and queued before it is lost
  (`FanOutToBrowser.OvertakenSnapshotMisses`); a client whose stream is in order converges if and
  only if every shape is caught in the sense of `Browser.Caught`
  (`FanOutToBrowser.ConnectedMemberConvergesIff`).
- A shape's sequence number survives the Redis script's own formatting if and only if it is
  below 10^14 (`RedisBroker.ShapeNumberLostAtLimit`).
- The two brokers' hydration guards agree if and only if the first snapshot was numbered or not
  empty (`RedisBroker.HydrateGuardsAgreeIffNumbered`).
- A Redis snapshot is two reads. It is exact if and only if, in between, every shape that was
  touched had been absent and was last deleted (`TornSnapshots.TornSnapshotExactIff`); an unmoved
  counter is enough (`TornSnapshots.UnmovedCounterIsExact`). A periodic save that reads the hash of
  a cold board and its counter after the hydration holds the durable number without the shapes, and
  the store's guard lets it overwrite them (`TornSnapshots.TornSaveErasesDurable`). Over whole runs
  with torn reads the stored number stays durable and within the counter, while the stored shapes
  are right on exactly the shapes undisturbed between the reads (`TornSnapshots.TornSavesIff`).
- A board that was asked to stop always has a step of its own to take until it is done and
  everyone who registered has returned. A connection admitted but not yet registered when its
  board takes the quit is stranded: the send that registers has no other arm
  (`internal/hub/client.go:133`). A session can still return, and a pending shutdown can still
  return nil, if and only if it, or nobody of its hub, is stranded
  (`ShutdownProgress.SessionReturnsIff`, `ShutdownProgress.ShutdownReturnsIff`); a stranded session
  is reachable (`Witnesses.ShutdownCanStrandRegistration`).
- The final snapshot covers every operation when the last client left. In general it does, on every
  continuation, if and only if no session is inside `applyShapeOp` when the snapshot is read
  (`FinalCheckpoint.FinalReadCoversIff`); under a shutdown one can be
  (`Witnesses.ShutdownCanMissOperation`).
- A periodic save can be in flight while the broker restarts and land afterwards. A landing costs
  nothing, at once or on any run without a harmful landing, if and only if the store already holds a higher number or this very
  snapshot, or the snapshot is a point of the broker's present history, or it extends what is
  durable before anyone can draw on the board without loading it (`Restarts.LandingIff`). A restart
  is safe if and only if the store has caught up with every save in flight
  (`Restarts.RestartIsSafeIff`), which the two numbers tell (`Restarts.AbsorbedByNumber`) and which
  holds when every board was left by its last client (`Restarts.LastLeaveRestartIsSafe`); after a
  shutdown it can fail (`Witnesses.RestartCanLose`).
- `docs/adr/0002-redis-fanout-vs-inmemory.md:43-46` describes a script that compares sequence
  numbers before it writes; the code's script overwrites plainly, and the model follows the code.
  `Tombstones.NoTombstonesNeeded` shows that nothing is lost by that.
- `docs/adr/0003-conflict-resolution-lww.md:20-22` has the board's goroutine assign sequence
  numbers; in the code the shared broker does, in the connection's goroutine, and publishing is a
  separate step, which is why deliveries may arrive out of order.

## Model

| member | source | states |
|---|---|---|
| `Sequencer.ReplayAt` | internal/broker/memory.go:56-70 | assigned numbers are contiguous, and each stored number is the last log position that writes its shape |
| `Sequencer.SnapshotUnique` | internal/broker/memory.go:118-134 | a board has at most one snapshot, whatever order its map is ranged over |
| `Sequencer.ReplayWellFormed` | internal/broker/memory.go:58-70 | in every reachable board the stored numbers are pairwise distinct and bounded by the counter |
| `Tombstones.NoTombstonesNeeded` | internal/broker/broker.go:13-15 | plain overwrite and delete in assigned order shows the same shapes as a tombstoned max-number merge of the same operations, permuted and duplicated at will |
| `MemoryBroker.BoardsAreReplays` | internal/broker/memory.go:58-70 | after any sequence of unhydrated calls each board is the replay of exactly the operations applied to it |
| `MemoryBroker.Memory.ApplyShape` | internal/broker/memory.go:58-70 | one atomic step of the abstract broker, replying the new number, presence untouched |
| `MemoryBroker.Memory.Snapshot` | internal/broker/memory.go:119-134 | replies the counter and a number-sorted listing of the whole map |
| `MemoryBroker.Memory.Hydrate` | internal/broker/memory.go:137-150 | loads into an empty board, otherwise refuses and changes nothing |
| `MemoryBroker.Memory.SetPresence` | internal/broker/memory.go:153-158 | changes one roster entry of one board and no document; announcing oneself keeps every participant under its own id |
| `MemoryBroker.Memory.RemovePresence` | internal/broker/memory.go:161-166 | removes one roster entry of one board, touches no document and keeps every participant under its own id |
| `MemoryBroker.LessIff` | internal/broker/memory.go:182 | the roster's order is ascending: the smaller character at the first difference, or a proper prefix, comes first |
| `MemoryBroker.Memory.Presence` | internal/broker/memory.go:169-184 | lists every decodable entry exactly once in client id order, strictly where every participant is stored under its own id |
| `MemoryBroker.OthersOf` | internal/hub/client.go:270-289 | the onboarding roster is everyone but the client itself, still strictly ordered |
| `Decimal.FieldRoundTrip` | internal/broker/redis.go:126-136 | a printed field parses back to its number and blob for every 64-bit number and every blob, newlines included |
| `Decimal.LuaFieldRoundTripsIffSmall` | internal/broker/redis.go:30 | a field printed by the script parses back if and only if the number is below 10^14 |
| `Decimal.ScientificDenotes` | internal/broker/redis.go:30 | from 10^14 on the script prints the number's 14 most significant digits, rounded to nearest |
| `Decimal.ParseFieldIff` | internal/broker/redis.go:126-136 | a stored field is malformed if and only if it has no newline, and otherwise is the number before the first newline and the blob after it |
| `RedisBroker.Server.RunApply` | internal/broker/redis.go:25-33 | the script's effect on the keyspace and its reply |
| `RedisBroker.Server.RunHydrate` | internal/broker/redis.go:41-50 | the hydration script's effect, loop included, and its reply |
| `RedisBroker.Redis.ApplyShape` | internal/broker/redis.go:67-80 | the client call is one step of the Redis broker with that step's reply |
| `RedisBroker.Redis.Hydrate` | internal/broker/redis.go:147-160 | the argument list built in the loop makes the call one hydration step |
| `RedisBroker.Redis.Snapshot` | internal/broker/redis.go:118-145 | with any calls of others between the two reads, the reply is a sorted listing of the fields as first read and the counter as read last; without any it is one atomic read |
| `RedisBroker.DecodeEncode` | internal/broker/redis.go:125-136 | decoding undoes the encoding and the malformed-field skip is never taken |
| `RedisBroker.DecodeLists` | internal/broker/redis.go:126-136 | of any hash whatever, exactly the fields with a newline are listed, each with the number before the first newline and the blob after it |
| `RedisBroker.CallsFailIff` | internal/broker/redis.go:139-143 | an operation fails, changing nothing, if and only if the counter is no number, and a snapshot if and only if it is no 64-bit number |
| `RedisBroker.StepRefines` | internal/broker/redis.go:67-160 | from related states every call leads to related states and exactly the same possible replies as the in-process broker |
| `RedisBroker.RedisRefinesMemory` | internal/broker/redis.go:16-50 | the same over every admissible sequence of calls from empty brokers |
| `RedisBroker.SnapshotReplyUnique` | internal/broker/redis.go:137-144 | both brokers give one and the same snapshot of a board |
| `RedisBroker.ShapeNumberLostAtLimit` | internal/broker/redis.go:30 | a created shape is stored with its number if and only if the number is below 10^14 |
| `RedisBroker.HydrateGuardsAgreeIffNumbered` | internal/broker/redis.go:42-44 | this guard and the in-process one agree if and only if the first snapshot was numbered or not empty |
| `TornSnapshots.TornSnapshot` | internal/broker/redis.go:118-145 | with any calls between the two reads, the shapes are the exact state at the first read, none is numbered above the returned number, and a board hydrated from it is well-formed |
| `TornSnapshots.TornSnapshotExactIff` | internal/broker/redis.go:118-145 | the result is a snapshot of the board at the second read if and only if every shape touched in between was absent at the first read and was last deleted |
| `TornSnapshots.UnmovedCounterIsExact` | internal/broker/redis.go:139-144 | if the counter did not move and nobody hydrated with number 0, the result is exact |
| `TornSnapshots.TornReadExactIff` | internal/broker/redis.go:118-145 | a read torn anywhere in a run gives, shape by shape, what the board had at the second read if and only if nothing disturbed the shape in between, and a number within the counter |
| `TornSnapshots.TornSavesIff` | internal/hub/persistence.go:47-56 | with any number of torn reads saved in any order, the stored number is the highest offered, never falls and never passes the counter, and the stored shapes are right on exactly the undisturbed ones |
| `TornSnapshots.TornSaveErasesDurable` | internal/hub/persistence.go:47-56 | one such schedule: a save that read a cold board's hash before and its counter after the hydration overwrites the durable snapshot with an empty one, harmless if and only if it was empty |
| `TornSnapshots.TornSnapshotLosesOperation` | internal/broker/redis.go:118-145 | the smallest case: an operation between the two reads is counted but not listed |
| `Browser.App.HandleMessage` | web/src/App.tsx:70-91 | the shape map after any message is the merge function's value |
| `Browser.UnrelatedIsIgnored` | web/src/App.tsx:92-124 | cursors, presence changes and rosters, anywhere among other events, leave the shape map as it would be without them |
| `Browser.EchoReplacesDrawing` | web/src/App.tsx:81-85 | after an accepted write and no later delete or drawing of the shape, the client holds a numbered entry at least as new: no optimistic entry outlives its echo |
| `Browser.ClientEntryIsTrue` | web/src/App.tsx:81-85 | whatever arrives in whatever order, a numbered entry a client holds is that log entry and not newer than the log's last |
| `Browser.ConvergesIffSettled` | web/src/App.tsx:70-124 | after a snapshot and any lossy, repeated, reordered deliveries, local drawing and other messages, the client's map is the broker's if and only if every shape settled |
| `Browser.Convergence` | web/src/App.tsx:72-91 | when writes carry bodies, it suffices that each shape's last operation arrives, last of all that touch the shape |
| `Browser.OrderInsensitiveWithoutDeletes` | web/src/App.tsx:78-87 | for histories of writes with bodies any order and duplication gives the broker's map |
| `Browser.SomeDeliveryConvergesIff` | web/src/App.tsx:83 | some legal delivery makes a client that loaded the snapshot at `n` agree with the broker if and only if every shape whose last operation is a write since then has one that carries its body |
| `Browser.ContiguousConvergesIff` | web/src/App.tsx:72-91 | a client that loads the snapshot at `n` and gets the log from `a` to its end, in order and among other messages, agrees with the broker if and only if every shape is caught: of what lies between `n` and `a` only deletions of shapes that the snapshot does not list may go missing |
| `Browser.StaleWriteResurrects` | web/src/App.tsx:88-91 | with every operation delivered exactly once, the wrong order brings a deleted shape back |
| `SnapshotStore.SavesKeepNewest` | internal/store/memory.go:23-38 | after any sequence of saves a load finds one of the newest snapshots offered, the number never decreases and no other board changes |
| `SnapshotStore.SaveOrderIsIrrelevant` | internal/store/memory.go:33-36 | as long as equal numbers mean equal snapshots, racing saves leave the same snapshot in whatever order and however often they arrive |
| `PersistenceCoordinator.Persistence.Hydrate` | internal/hub/persistence.go:30-44 | the broker is hydrated from exactly the stored snapshot, or left alone if there is none |
| `PersistenceCoordinator.Persistence.Save` | internal/hub/persistence.go:47-56 | saves a snapshot the broker could give, after which the store is at least as recent as the broker was |
| `PersistenceCoordinator.HydrateRebuilds` | internal/broker/memory.go:119-150 | hydrating an empty broker from a board's snapshot rebuilds the board |
| `PersistenceCoordinator.SnapshotAfterHydrate` | internal/broker/memory.go:119-150 | the snapshot after a hydration is the hydrated one and no other |
| `PersistenceCoordinator.SnapshotSurvivesRestart` | internal/broker/memory.go:119-150 | a board's own snapshot, hydrated into an empty broker, is exactly what the next reader gets |
| `Registry.Hub.BeginSession` | internal/hub/hub.go:200-218 | rejects when closing, otherwise counts the session in and hands out the registered or a new board |
| `Registry.Hub.ReleaseEntry` | internal/hub/hub.go:231-242 | the registry and the outcome after one release, for all three branches |
| `Registry.Hub.BeginShutdown` | internal/hub/hub.go:116-130 | the first call captures every registered board exactly once and empties the registry, a later one changes nothing |
| `Runs.ReleaseFindsOwnBoard` | internal/hub/hub.go:231-236 | a release finds its id registered exactly while the hub is open, and then it is its own board: `e.board != b` never arises |
| `Lifecycle.RegistryKept` | internal/hub/hub.go:194-252 | every step of any goroutine keeps the keep-open protocol's invariant |
| `Coverage.CoverageKept` | internal/hub/hub.go:116-130 | every step keeps each board registered, left by its last client, or captured by its hub's shutdown; and whoever left last has told it to quit or is about to |
| `Departures.DeparturesKept` | internal/hub/hub.go:231-252 | every step keeps those through their release out of every fan-out set, unless the board is stopping |
| `Handovers.HandoversKept` | internal/hub/client.go:257-264 | every step keeps each snapshot on its way to a client a snapshot of the board at a point of the broker's present history |
| `Naming.NamesKept` | internal/hub/client.go:205-210 | every step keeps all operations sequenced, loaded, saved or on their way named |
| `Channels.ChannelsKept` | internal/hub/board.go:225-252 | every step keeps present flag, fan-out set, queue and connection in agreement |
| `Accounting.AccountsKept` | internal/hub/hub.go:207-216 | every step keeps wait groups, gauge and roster exact |
| `Durability.DataKept` | internal/hub/persistence.go:28-56 | every step, harmful landings included, keeps broker, store and every snapshot in flight consistent, each with its own log, and at most one loading hydration between restarts |
| `Alignment.StepKept` | internal/hub/persistence.go:28-56 | every step but a harmful landing keeps a broker with state, and whatever can be drawn on, an extension of what is durable |
| `Checkpointing.CoverKept` | internal/hub/board.go:112-115 | every step keeps a board's sessions covered by broker, snapshot in hand or store |
| `Runs.KeepOpenIsExact` | internal/hub/hub.go:26-34 | each count is exactly the number of admitted, unreleased sessions, at least one; while a hub is open their board is the registered one and is not stopping |
| `Runs.GaugesAreExact` | internal/hub/hub.go:207-216 | the open-board gauge is started minus finished boards and each wait group its hub's unreturned sessions |
| `Runs.ChannelSafety` | internal/hub/board.go:225-240 | present iff in the fan-out set iff joined with the queue open; no queue is closed twice, and a quit is requested at most once, by exactly one of the last release and the shutdown |
| `Runs.DoneBoardsAreDrained` | internal/hub/board.go:242-252 | a done board has no clients and every client that registered with it has queue and connection closed |
| `Runs.RosterIsExact` | internal/hub/client.go:228-253 | the roster is exactly the sessions between announcing and leaving, on any hub, and empty once all returned |
| `SoundRuns.Durable` | internal/hub/persistence.go:46-56 | with any number of savers and restarts and no harmful landing, nothing durable is lost or rewritten, the stored shapes are the replay of the durable log, the stored number its length, and a broker with state extends it |
| `SoundRuns.EqualSaveIsNoOp` | internal/store/memory.go:33-36 | a harmless periodic save with the stored number changes nothing |
| `SoundRuns.EqualFinalSaveIsNoOp` | internal/store/memory.go:33-36 | nor does a board's final save with the stored number |
| `SoundRuns.RestartState` | internal/hub/board.go:80-83 | after a broker restart the broker is empty and what is durable is as it was |
| `SoundRuns.CautiousRunsAreSound` | internal/hub/persistence.go:47-56 | if every restart waits until the store has caught up with all saves in flight, no landing of the run is harmful |
| `SoundRuns.LastLeaveLosesNothing` | internal/hub/board.go:112-115 | with nobody connected and every board left by its last client, the store holds everything the broker does and has caught up with every save read since the last restart |
| `Restarts.LandingIff` | internal/hub/persistence.go:47-56 | when a save in flight lands, nothing durable is lost then or on any sound continuation and no stored number is given out again if and only if the landing is harmless |
| `Restarts.ForkLosesDurable` | internal/hub/persistence.go:47-56 | whenever a broker's history does not extend what is durable, someone can connect, draw and save so that a durable operation is gone |
| `Restarts.RestartIsSafeIff` | internal/hub/persistence.go:47-56 | whatever is saved when, nothing durable is lost until the next restart and no stored number is given out again if and only if the store has caught up with every save in flight |
| `Restarts.AbsorbedByNumber` | internal/store/memory.go:33-36 | unless a restart overtook the save already, the store has caught up with it if and only if its number is not above the stored one |
| `Restarts.LastLeaveRestartIsSafe` | internal/hub/board.go:112-115 | a restart after the last client left every board is safe |
| `SoundRuns.ColdStartLoadsOnce` | internal/hub/persistence.go:30-44 | after a restart and until the next, however many boards race and whichever harmless saves still land, at most one hydration loads, and a broker that holds anything was loaded by it with all that was durable |
| `Runs.HydrationKeepsOperations` | internal/hub/persistence.go:39-43 | no hydration, early or late, discards an operation the broker holds |
| `SoundRuns.SequencedAfterLoad` | internal/hub/board.go:80-83 | every operation is sequenced after everything durable is in the broker, above the stored number and above every shape the broker holds |
| `Runs.LastLeaveCheckpoint` | internal/hub/board.go:112-115 | when a board its last client left is done, the store covers every number assigned to any of its sessions |
| `Runs.ShutdownIsSound` | internal/hub/hub.go:116-162 | once the first call of a shutdown returned nil, for ever after: nobody is admitted, nothing is registered, no session is in flight, every captured board is done and empty, every connection closed |
| `Conduct.ShutdownReachesEveryBoard` | internal/hub/hub.go:116-162 | when the first call of a shutdown has returned nil, every board its hub ever opened is done and empty, or was told to quit by its last leaver |
| `Conduct.TimeoutIsFinal` | internal/hub/hub.go:141-157 | once its context has expired, the first call of a shutdown never returns nil, whatever run follows |
| `Conduct.PendingShutdownCanExpire` | internal/hub/hub.go:132-157 | a shutdown that has not ended can still be ended by its context, in any reachable state, a stranded session included |
| `Conduct.ReleaseDecides` | internal/hub/hub.go:228-252 | a released session has nothing to do once the shutdown has begun, and before that unregisters if another session holds the board and closes its quit if none does |
| `Conduct.LeaversAreGone` | internal/hub/hub.go:244-252 | whoever is through its release is in no fan-out set, its queue closed once and its connection closed, unless the board is stopping and not yet done |
| `Conduct.OnlyMembersAreKicked` | internal/hub/board.go:170-190 | at any time exactly the members of a board can be kicked, and a kick closes queue and connection for good |
| `Conduct.MembersAreServed` | internal/hub/client.go:292-298 | a member on its way can always be handed its snapshot and its roster |
| `Conduct.PersonalMessage` | internal/hub/board.go:106-109 | a snapshot or roster for a client keeps a member or kicks it, and does nothing to a client that is gone |
| `Conduct.RosterIsThatOfEveryHub` | internal/hub/client.go:270-282 | the roster a connection hands over lists exactly the sessions of any hub that were announced on its board when it asked, itself among them |
| `Conduct.HandsOverThePast` | internal/hub/client.go:257-264 | the snapshot a connection hands over is one of the board at a point of the history that the broker still holds |
| `Handovers.FetchedIsCurrent` | internal/hub/client.go:257-264 | and when it was fetched it was one of the present board |
| `Conduct.NothingIsUnnamed` | internal/hub/client.go:205-210 | no operation without a shape id is ever sequenced and no such shape is ever stored, in the broker or durably |
| `Conduct.SavesAreConserved` | internal/hub/persistence.go:47-56 | along any run, periodic saves in flight plus landings equal those in flight before plus reads: none is lost or lands twice |
| `Programs.ServeFollowsScript` | internal/hub/client.go:106-166 | along any run a connection's steps are a prefix of what `Serve` prescribes: register, announce, snapshot, roster, rounds of read, sequence and publish, then leave roster and registry; and all of it once it has returned |
| `Programs.BoardFollowsItsLife` | internal/hub/board.go:75-117 | along any run a board loads, hydrates, takes its quit, reads and writes its final snapshot and closes `done`, each once and in this order |
| `Programs.ShutdownFollowsItsCourse` | internal/hub/hub.go:116-162 | a shutdown that ended had told every captured board to quit before it awaited any, and returned nil only after awaiting them all and the sessions last |
| `Drain.StepMeasure` | internal/hub/board.go:94-117 | every internal step of a stopping board decreases its measure, and no other step increases it, except reading one more frame before the quit is taken |
| `Drain.ProgressIffNotDrained` | internal/hub/hub.go:224-252 | a stopping board has an internal step enabled if and only if it is not fully drained, racing releases included |
| `Drain.DrainIsBounded` | internal/hub/client.go:155-163 | once the quit is taken, any run whatsoever has at most as many internal steps of the board as its measure |
| `Drain.LateRegistrationBlocksForever` | internal/hub/client.go:133 | a session unregistered when its board takes the quit never moves again and its hub's shutdown never returns nil, whatever run follows |
| `ShutdownProgress.SessionReturnsIff` | internal/hub/client.go:133 | in any reachable state a session can still return if and only if it is not waiting to register with a board past its quit |
| `ShutdownProgress.ShutdownReturnsIff` | internal/hub/hub.go:132-161 | a pending shutdown can still return nil if and only if no session of its hub is so stranded |
| `FinalCheckpoint.FinalReadCoversIff` | internal/hub/board.go:112-115 | every way to finish after the final read leaves the store covering all numbers ever assigned to the board's sessions if and only if none of them is inside `applyShapeOp` at the read |
| `Witnesses.ShutdownCanStrandRegistration` | internal/hub/client.go:133 | that state is reachable |
| `Witnesses.ShutdownCanMissOperation` | internal/hub/board.go:112-115 | a reachable run of a shutdown whose final snapshot misses a sequenced operation |
| `Witnesses.RestartCanLose` | internal/hub/persistence.go:47-56 | a reachable state with nobody connected whose restart is not safe, because a periodic save in flight holds what the final snapshot missed |
| `Reconciliation.JoinedClientConverges` | internal/hub/client.go:257-266 | for any connection of any run, from the snapshot it hands over and as long as it has not returned, its browser's map equals the shared broker's if and only if every shape settled |
| `FanOutToBrowser.MemberConvergesIff` | internal/hub/board.go:152-190 | a member of a board whose write pump has caught up, on a stream that carried the operations in order since it joined, holds the broker's map if and only if every shape is caught from the place of its snapshot in its queue on |
| `FanOutToBrowser.MemberConverges` | internal/hub/client.go:135-141 | so it does whenever its snapshot is no older than that place and writes carry their bodies |
| `FanOutToBrowser.ConnectedMemberConvergesIff` | internal/hub/client.go:135-141 | the same in the running system, for the snapshot that a connection hands over and the broker's history in any later state while it is connected |
| `FanOutToBrowser.OvertakenSnapshotMisses` | internal/hub/client.go:135-141 | an operation sequenced after the snapshot was read and relayed before it was queued never shows |
| `BoardActor.Client.PumpOnce` | internal/hub/client.go:327-336 | the pump writes the queue's head, first in first out, and ends on a closed empty queue or a failed write |
| `BoardActor.Board.Join` | internal/hub/board.go:142-147 | the client enters both indexes and is owed the stream from here on |
| `BoardActor.Board.Dispatch` | internal/hub/board.go:152-165 | reliable messages go to all, kicking whoever is full; cursors never remove anyone or reach their local origin |
| `BoardActor.Board.DeliverReliable` | internal/hub/board.go:170-190 | one outcome for every iteration order: queues with room gain exactly the message, the others are removed and closed, delivered plus kicked is the number of recipients |
| `BoardActor.Board.DeliverBestEffort` | internal/hub/board.go:195-208 | queues with room, the origin's excepted, gain the cursor; everything else is unchanged |
| `BoardActor.Board.Push` | internal/hub/board.go:212-223 | a personal message is queued, or its client is kicked, and the result says which |
| `BoardActor.Board.Direct` | internal/hub/board.go:106-109 | a personal message for a client that is gone changes nothing |
| `BoardActor.Board.Unregister` | internal/hub/board.go:98-99 | removes and closes a member once, leaves a former member untouched |
| `BoardActor.Board.Detach` | internal/hub/board.go:229-240 | idempotent removal: one close of the queue however many parties ask |
| `BoardActor.Board.Shutdown` | internal/hub/board.go:243-252 | every remaining client is removed, its queue closed once and its connection closed |
| `BoardActor.Board.NeverSkips` | internal/hub/board.go:94-109 | a client's reliable messages are a contiguous segment of the stream from its join to now or to its removal, and what was written is a prefix of it |
| `BoardActor.Board.Census` | internal/hub/board.go:167-252 | over whole lives: joined is present plus kicked plus unregistered plus drained, and delivered is the sum of all that was ever put in a queue |
| `BoardActor.Board.Pump` | internal/hub/client.go:327-336 | a turn of a client's write pump, whether it writes or fails, keeps all of the board's guarantees |
| `BoardActor.ReliablePrefix` | internal/hub/client.go:327-336 | a prefix of the queue history carries a prefix of the reliable messages |

## Left out

- JSON, the WebSocket adapter, the HTTP server, signals, configuration, logging, the metrics exporter and the load generator; messages are datatypes and unparseable ones are one of their cases.
- The pub/sub transport: `Publish` and `Subscribe` are represented by deliveries that may be lost, repeated and reordered arbitrarily, so nothing is claimed about which messages reach a board.
- Real Redis and Postgres execution, and Redis's presence hash; only the two scripts, the two reads of a snapshot and the sequence guard are modelled.
- The system-wide state machine runs over the atomic in-process broker; what the two-read Redis snapshot adds is stated separately in `TornSnapshots`.
- 64-bit wrap-around of sequence numbers, which are unbounded in the system model.
- RedisRefinesMemory: covers every hydration except of the blank snapshot (number 0, no shapes) and assigned numbers below 10^14; at a blank hydration and from that number on the two brokers differ, as `HydrateGuardsAgreeIffNumbered` and `ShapeNumberLostAtLimit` state.
- What a write without a body does below the level of blobs: the in-process broker returns it as a null body, while the Redis broker returns an empty one that the JSON encoder rejects, so that snapshots and saves of that board fail.
- Which JSON texts a browser treats as an absent body (null, 0, -0.0 and so on) is a parameter; the results hold for any such set.
- Hubs without a store, and errors returned by broker or store.
- Broker restarts while a session or a board is live.
- Runs after a harmful landing are part of the model and of `Durability.DataKept`, but the theorems of `SoundRuns` do not speak of them; `Restarts.LandingIff` shows that each such landing loses something at once or on some continuation.
- FanOutToBrowser assumes that the stream of the board carries the operations in sequence order without a gap, which the transport does not promise; `Reconciliation.JoinedClientConverges` covers every other delivery. A member's own drawing is left to that theorem too.
- The periodic coordinator's timer and list of boards: in the model any snapshot of any board may be read, and written later, at any time and by any number of savers.
- Timers, heartbeats and contexts: a timeout, a lost connection or a cancelled request may happen at any point. The write pump's heartbeat and cancellation arms only end the pump and are not modelled.
- The fan-out class handles one event of the board's loop at a time; interleavings of boards, sessions and hubs are the subject of `System`, which counts queue closes and membership but not queue contents.
- The order in which slow clients are kicked after the delivery loop, which follows map iteration, and the `exclude` argument of reliable delivery, which is always nil.
- The diagnostic `inspect` request, default names and colours, random ids (assumed unique), and the browser's presence and cursor maps, where a leave may overtake the roster.
