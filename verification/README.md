# The appunvs relay, verified

A Dafny model of the relay's stateful core and proofs about it. `dafny verify dfyconfig.toml`
checks everything. Five parts:

**Sync protocol** (`wire`, `stream`, `hub`, `hub_protocol`, `ws`, `protocol*`, `client`). Provider writes draw a
number, store and broadcast in three separate steps; sockets register, read the log and replay it
one send at a time through a 64-slot channel. `Protocol` is the transition system of one namespace
with any number of sockets and writers, every interleaving a run; `ProtocolInvariant` proves its
invariant step by step, `ProtocolTheorems` draws the guarantees, `ProtocolReplay` says exactly when
a replay completes and when it comes first, and `ProtocolLimit` runs into that limit. `SyncClient` adds a client that
reconnects any number of times. `Stream`, `Hub` and `Ws` are the same code as objects updated in
place, and `HubProtocol.OfferIsSend` ties a channel of one to a channel of the other.

**Git workspace** (`paths`, `path_names`, `order`, `tree`, `canonical`, `flat`, `trie`, `repo`,
`obstruction`). Path cleaning is
specified by levels, and `PathNames` says which names survive it; a flat map of paths becomes a trie, nested sorted trees and a commit chain, and
is read back. `Trie` is the heap version (child objects with footprints), proved against the values;
`Obstruction` says what goes wrong, and exactly when, if a file shares its path with a directory.

**Publishing** (`boxes`, `events`, `publish*`, `script`, `service`). Every BuildAndPublish call is a job that
makes one table, artifact or event step at a time and may stop anywhere, interleaved with Create,
Archive and other jobs. `BoxService` is the undisturbed call on the real tables and
workspace, with every way it can fail; it is proved to leave exactly what a job's steps leave.

**Quotas** (`gate`, `calendar`, `usage`, `quota`, `caps`, `overshoot*`, `pricing`). Read-then-act gates with an
exact overshoot bound, month windows over the Gregorian calendar (instants are nanoseconds since
1970, of either sign), day-key sums, retry hints, and ceiling arithmetic in exact integers.

**AI turns** (`assembly`, `turns`, `conversation`, `memory`, `pairing`, `sessions`, `frames`, `sse*`). Streamed
tool-call deltas, the agent loop, the replay of history across turns, and the event stream printed
by the relay and parsed by the Android client.

## What the proofs found

Where the code and its documentation disagree, the model follows the code.

- The relay registers a socket before it reads the log, so live traffic can precede the replay,
  although relay/README.md:94-106 says the replay comes first (`LiveCanComeFirst`). It does come first
  exactly if nothing is broadcast from the registration to the last replay send (`ReplayFirstIff`).
  What always holds is no gap (`NoGap`) with at most two copies (`AtMostTwice`). The same page says a
  write goes to every other socket; the code includes the sender (`Ws.Server.Publish`).
- The write loop that drains the 64-slot channel starts only after the replay, so a replay completes
  exactly if the broadcasts offered since the registration and all entries to replay fit those slots
  together (`ReplayCanCompleteIff`): in one run 64 entries do, and after one more broadcast they never do
(`OneBroadcastTooMany`). Number 1 is never
  replayed, because a replay needs `last_seq` > 0 (`FirstEntryIsNeverReplayed`).
- A client that resumes from the highest number it has seen can lose an entry for good, because
  numbering and storing are not one step (`HighestSeenIsNotSafe`), and a write whose XADD reply is lost
  never reaches the sessions open at that time (`LostReplyIsMissed`). `SettledSessionIsComplete` gives
  the exact condition, and `ContiguousResumeIsSafe` one for last_seq that the client can check.
- A blocking send to a closed channel reports no error: the panic is recovered and the result is nil,
  so the replay loop does not bail out as its comment says (`Hub.Conn.SendBlocking`).
- The message gate overshoots by one message less than the number of calls in flight, not by one
  (`SoftCap`, `SoftCapIsTight`). So do the storage and sandbox gates, counting publishes in flight,
  which can reopen an archived box or restamp a row into the next month (`Overshoot`).
- The 5-day LLM hint is up to one millisecond short (`FiveDayHintExactly`, `FiveDayHintIsShort`);
  the monthly hints are honest.
- An archive lands for good exactly when no call is under way that found the box unpublished and has
  not flipped its state (`ArchiveIsFinalIff`).
- Each stored turn repeats the history it replayed, so history at least doubles with every turn until
  20 rows are stored (`HistoryDoubles`, `HistoryIsExponential`), whatever the stamps.
- Nothing is ever forgotten (`NothingIsForgotten`) if the turns of a box carry strictly increasing
  stamps, and only then (`CompleteIffInOrder`): two turns in one millisecond come back in the wrong
  order (`SameMillisecondReorders`). The condition that no two turns end alike is needed for "only
  then", since equal turns can change places unnoticed.
- The trail row of a failed turn names no box, so the foreign key refuses it (`Conversation.Engine.Run`).
- A file set in which one path is a directory of another has two different trees
  (`DeterminedIffConflictFree`). A commit that changes no file is certain to keep the head only without
  such a pair (`HeadIsKeptIff`), and ReadFile is certain to find a stored file only if no other path is
  above or below it (`ReadIsCertainIff`); `RepeatLosesFile` runs into both. Reading everything back is
  right even then (`SnapshotReadsBack`).

## Assumptions

Redis INCR, XADD and XRANGE and the SQL statements are atomic and either take effect or fail. Commit
and blob hashes are injective; content hashes stand for content. One Broadcast, one event Publish and
one Commit are one step each. Identifiers and versions from `newID` and `newVersion` are fresh
(`ReuseIsSafeIff` says which versions may be reused). sort.Slice may leave equal names in either
order, as its documentation allows; where an implementation keeps short lists in place, a directory
always comes after the file of its name, which is then never found while the head stays. Rows of equal
created_at come back in row order, as the index on box_id and created_at has them; if the newest of
them came first, `CompleteIffInOrder` would need no more than that stamps never decrease. JSON is a
pair of functions that print an object on one line and read it back (`EventStream.Faithful`) and accept
nothing that lacks an object's end (`BrokenStream.Delimited`); a UTF-8 decoder turns a broken last
character into replacement characters or nothing.
Clocks, randomness, builds, tool results and model streams are parameters.

## Model

| member | source | states |
|---|---|---|
| Stream.AfterIsTheTail | relay/internal/stream/stream.go:59-79 | a range read holds exactly the stored messages with a later number, each once when numbers are distinct |
| Stream.TailInOrder | relay/internal/stream/stream.go:59-79 | what a range read keeps is in log order |
| Stream.UnreadableIsSkipped | relay/internal/stream/stream.go:59-79 | an entry that does not decode is left out and costs no other |
| Stream.Sequencer.Next | relay/internal/sequencer/sequencer.go:21-30 | one atomic increment of the namespace's counter; an empty namespace or a failed call changes nothing |
| Stream.Store.Append | relay/internal/stream/stream.go:34-55 | the log grows by exactly this message, other namespaces untouched; a refused call stores nothing |
| Stream.Store.Range | relay/internal/stream/stream.go:59-79 | the readable entries above a number, in log order, unreadable ones skipped |
| Hub.Conn.Send | relay/internal/hub/conn.go:58-65 | enqueues exactly when fewer than 64 messages wait |
| Hub.Conn.SendBlocking | relay/internal/hub/conn.go:70-78 | a call that returns enqueued on an open channel or did nothing on a closed one, and reports no error either way |
| Hub.Conn.Receive | relay/internal/hub/conn.go:113-142 | the write loop takes the oldest message, and ends only when the channel is closed and drained |
| Hub.Hub.Register | relay/internal/hub/hub.go:43-58 | exactly this connection joins its namespace |
| Hub.Hub.Unregister | relay/internal/hub/hub.go:62-81 | removes the connection and closes its channel once; a second call changes nothing |
| Hub.Hub.Targets | relay/internal/hub/hub.go:85-98 | the snapshot holds each matching member other than the origin exactly once |
| Hub.Hub.Broadcast | relay/internal/hub/hub.go:85-113 | every target with room gets the message, every full one is scheduled for eviction, nobody else is touched |
| HubProtocol.OfferIsSend | relay/internal/hub/conn.go:58-65 | the protocol model's channels take a broadcast exactly as the real channel does |
| Ws.Server.Publish | relay/internal/handler/ws.go:191-212 | number, log entry and broadcasts of one write, or none after the step that failed; other namespaces unchanged |
| Ws.Server.Provider | relay/internal/handler/ws.go:143-212 | a provider message ends as FateOf says; only a published one reaches log and channels, only an over-quota one gets a notice |
| Ws.Server.Connector | relay/internal/handler/ws.go:214-222 | a connector message reaches providers other than the sender, takes no number and is not stored |
| Ws.Server.Inbound | relay/internal/handler/ws.go:120-223 | identity is overwritten from the socket and the role is refreshed; in terms of counters, logs and channels: a foreign namespace or a refused data operation changes nothing; any other provider write is stored under the next number and offered to every member, a broken gate included; beyond the quota the sender gets the notice and nothing else happens; a failing Redis call leaves at most the number drawn; a connector message only reaches the other providers |
| Ws.Server.BroadcastSchema | relay/internal/handler/schema.go:203-231 | a schema change is numbered, stored and broadcast to everyone like a provider write, or as far as the step that failed; other namespaces unchanged |
| Ws.Server.CatchUp | relay/internal/handler/ws.go:89-108 | the replay comes through exactly if the channel is closed or holds everything; else it stays blocked with the channel full of the first entries; nothing without last_seq or on a failed read |
| ProtocolInvariant.WritesPreserved | relay/internal/handler/ws.go:191-212 | every step keeps numbers distinct, logged only once, and each writer's numbers increasing |
| ProtocolInvariant.SocketsPreserved | relay/internal/handler/ws.go:87-114 | every step keeps what each socket has been sent tied to the broadcasts since it registered and the entries it read |
| ProtocolInvariant.RunInv | relay/internal/handler/ws.go:56-223 | the invariant over every interleaving |
| ProtocolTheorems.SequenceSafety | relay/internal/sequencer/sequencer.go:21-30 | in every run log numbers are distinct and at most the counter, each sender's entries increase in the log and in every channel |
| ProtocolTheorems.SentExactly | relay/internal/handler/ws.go:87-110 | a caught-up socket was sent exactly the broadcasts since it registered and the entries it read above last_seq |
| ProtocolTheorems.AtMostTwice | relay/internal/handler/ws.go:87-110 | no channel ever carries a message more than twice |
| ProtocolTheorems.NoGap | relay/internal/handler/ws.go:87-101 | a caught-up socket was sent every later entry once or twice unless its writer still holds it or lost track of it |
| ProtocolReplay.ReplayCanCompleteIff | relay/internal/handler/ws.go:87-114 | a joining socket still has a continuation in which it catches up if and only if live broadcasts, replayed and still missing entries together fit the 64 slots |
| ProtocolLimit.OneBroadcastTooMany | relay/internal/handler/ws.go:87-114 | a run in which a replay of 64 entries can complete, and after one more write no continuation completes it |
| ProtocolReplay.ReplayFirstIff | relay/internal/handler/ws.go:87-110 | for a socket that stays in the hub no live broadcast precedes a replayed entry if and only if nothing was broadcast between its registration and any of its replay sends |
| ProtocolReplay.ReplayFirstMeans | relay/internal/handler/ws.go:89-108 | that order, said over positions in the channel |
| ProtocolReplay.LiveCanComeFirst | relay/internal/handler/ws.go:87-110 | a run in which a caught-up socket gets an entry live, then again by replay: the order fails and two copies occur |
| ProtocolTheorems.FirstEntryIsNeverReplayed | relay/internal/handler/ws.go:90-101 | replayed numbers are above 1, and nothing is replayed without last_seq |
| SyncClient.RelaySide | relay/internal/handler/ws.go:56-114 | whatever a reconnecting client does, the relay's side is a run of the protocol |
| SyncClient.SettledSessionIsComplete | relay/internal/handler/ws.go:90-114 | after any reconnects, a drained undoomed session with no write under way holds every entry if and only if the client held what its last_seq passes over, and every entry with a lost XADD reply was there when the session read the log or held before |
| SyncClient.LostReplyIsMissed | relay/internal/handler/schema.go:203-231 | every settled session misses the next HTTP write whose XADD reply is lost, and stays settled |
| SyncClient.HeldIsStored | relay/internal/stream/stream.go:34-79 | a client never holds anything that is not in the log |
| SyncClient.ContiguousResumeIsSafe | relay/internal/stream/stream.go:59-79 | resuming below a number up to which every entry is held is safe |
| SyncClient.HighestSeenIsNotSafe | relay/internal/handler/ws.go:192-210 | a concrete run in which resuming from the highest number seen loses an entry |
| Paths.SplitOfJoin | relay/internal/workspace/workspace.go:437-438 | splitting a joined list of plain components gives it back |
| Paths.CleanIsIdempotent | relay/internal/workspace/workspace.go:402-402 | lexical cleaning twice is cleaning once |
| Paths.ReduceByLevels | relay/internal/workspace/workspace.go:402-402 | a cleaned relative path climbs exactly as far as the original's lowest level and ends at the same level |
| Paths.NormalizeRejectsExactly | relay/internal/workspace/workspace.go:397-407 | refused are exactly the empty, the rooted, those that ever climb above the workspace and those that end at it |
| Paths.NormalizeYieldsProper | relay/internal/workspace/workspace.go:397-407 | results have no empty, "." or ".." component, no leading slash, and are fixed points |
| Paths.ProperIsFixed | relay/internal/workspace/workspace.go:397-407 | every proper path is its own normal form |
| Paths.CleanShrinks | relay/internal/sandbox/docker.go:211-225 | cleaning never lengthens a path, which is why the traversal loop ends |
| Paths.DirOfClean | relay/internal/sandbox/docker.go:211-225 | one round of the loop keeps the answer: ".." is in the path exactly if it is in the directory part or is the last component |
| Paths.DirOfRelative | relay/internal/sandbox/docker.go:211-225 | on relative paths the round drops exactly the last component |
| Paths.HasParentTraversal | relay/internal/sandbox/docker.go:211-225 | terminates on every string, and on a cleaned path decides whether a component is ".." |
| Paths.IsCleanRelPath | relay/internal/sandbox/docker.go:192-209 | accepts exactly relative paths that never climb above their start and do not end at it |
| Paths.ProperPathsPassTheGuard | relay/internal/sandbox/docker.go:192-209 | the builder's guard accepts every path the workspace can hold |
| PathNames.NameCancels | relay/internal/workspace/workspace.go:402-402 | a name followed by ".." can be cut out of a component list anywhere |
| PathNames.EmptyDrops | relay/internal/workspace/workspace.go:402-402 | so can an empty component and "." |
| PathNames.ReduceKeepsSurvivors | relay/internal/workspace/workspace.go:402-402 | cleaning keeps exactly the names below which no later part of the path climbs, in order, behind one ".." per level below the start |
| PathNames.CleanKeepsSurvivors | relay/internal/workspace/workspace.go:402-402 | the same about whole paths, rooted or not, an empty result being "." |
| PathNames.NormalizeKeepsSurvivors | relay/internal/workspace/workspace.go:397-407 | the components of an accepted path are exactly the surviving names |
| PathNames.EnteredAndLeft | relay/internal/workspace/workspace.go:397-407 | entering a directory and leaving it again makes no difference to a cleaned or normalised path, unless it changes where the path starts |
| Order.LessMeans | relay/internal/workspace/workspace.go:467-467 | names are compared at the first place where they differ, and a proper prefix comes first |
| Order.SortBySorts | relay/internal/workspace/workspace.go:467-467 | sorting gives a sorted permutation |
| Order.AscendingIsUnique | relay/internal/workspace/workspace.go:467-467 | a set of names has one sorted list |
| Trees.FindInserted | relay/internal/workspace/workspace.go:437-452 | inserting a path changes the lookup of that path only |
| Trees.SameFindSameTrie | relay/internal/workspace/workspace.go:437-452 | a trie is determined by its lookups, so the order of insertion does not matter |
| Trees.ConflictFreeIsPrefixFree | relay/internal/workspace/workspace.go:437-452 | no name is both file and directory if and only if no path is a directory of another |
| Trees.SortedListingIsEmitted | relay/internal/workspace/workspace.go:455-475 | any sorted listing of files and subtrees is a tree the relay may write |
| Trees.WalkFinds | relay/internal/workspace/workspace.go:258-276 | walking an emitted tree meets exactly the trie's files with their contents |
| Trees.WalkIsDistinct | relay/internal/workspace/workspace.go:258-276 | the walk meets no path twice |
| Trees.TreeRoundTrip | relay/internal/workspace/workspace.go:431-477 | a path has a content in what the walk collects if and only if the trie has it |
| Canonical.TreeIsCanonical | relay/internal/workspace/workspace.go:454-476 | without conflicts a trie has one tree, whatever order the maps yield |
| Canonical.SameTreeSameTrie | relay/internal/workspace/workspace.go:454-476 | equal trees come from equal tries, conflicts or not |
| Canonical.SomeTree | relay/internal/workspace/workspace.go:454-476 | every trie has a tree |
| Canonical.ConflictLeavesTwoTrees | relay/internal/workspace/workspace.go:454-476 | with a conflict anywhere there are two different trees for the same files |
| Canonical.DeterminedIffConflictFree | relay/internal/workspace/workspace.go:454-476 | the tree is determined if and only if no path is a directory of another |
| Canonical.LookupIsSound | relay/internal/workspace/workspace.go:280-312 | whatever the lookup finds is what the trie has there, conflicts or not |
| Canonical.LookupFinds | relay/internal/workspace/workspace.go:280-312 | where no name on the way is both file and directory, looking a path up agrees with the trie |
| Flat.SnapshotReadsBack | relay/internal/workspace/workspace.go:240-276 | reading back the tree written for a flat map gives exactly that map |
| Flat.DirectoryIsPrefix | relay/internal/workspace/workspace.go:437-452 | a path is a directory of another exactly when its components are a proper prefix |
| Flat.NoConflictsIsPrefixFree | relay/internal/workspace/workspace.go:437-452 | conflicts of paths are conflicts in the trie, both ways |
| Flat.TreeIdentifiesFiles | relay/internal/workspace/workspace.go:201-212 | equal trees have equal files; without conflicts equal files have equal trees |
| Flat.LookupAgrees | relay/internal/workspace/workspace.go:280-312 | reading one file gives the snapshot's content or nothing, and it finds every file that no other file's path obstructs (no others for certain: Obstruction.FoundInEveryTreeIff) |
| Flat.InsertRepresents | relay/internal/workspace/workspace.go:437-452 | adding a path to the trie adds it to the map it represents |
| Trie.Child.Add | relay/internal/workspace/workspace.go:437-452 | the descent on heap objects inserts the path, creates only fresh children and keeps footprints apart |
| Trie.Child.Emit | relay/internal/workspace/workspace.go:454-475 | the recursive emit yields a tree of the trie |
| Trie.WriteTree | relay/internal/workspace/workspace.go:431-477 | yields a tree for the flat map, whatever order its keys come in |
| Repository.Repo.Edit | relay/internal/workspace/workspace.go:185-199 | operations apply in order, the first illegal path ends the call with nothing applied (what that leaves: FailsIffIllegal, LastOpWins) |
| Repository.FailsIffIllegal | relay/internal/workspace/workspace.go:185-199 | a call fails exactly if one of its paths has no normal form |
| Repository.LastOpWins | relay/internal/workspace/workspace.go:185-199 | the last operation on a path, by whatever spelling, decides whether it is there and with what content; what no operation names stays |
| Repository.Repo.Commit | relay/internal/workspace/workspace.go:140-235 | fails exactly without operations, with an illegal path or a failing store, and then changes nothing; else the head's files are the edited ones, by a new commit only if the tree differs |
| Repository.NoOpIffSameFiles | relay/internal/workspace/workspace.go:201-212 | without conflicts Commit returns the old head exactly when its operations leave the files unchanged |
| Repository.StepKeepsHistory | relay/internal/workspace/workspace.go:140-235 | one call keeps every commit readable and adjacent trees different |
| Repository.RunRefinesMap | relay/internal/workspace/workspace.go:140-235 | after any calls, failed ones included, the snapshot is a plain map with the operations applied |
| Repository.IntendedPathsAreProper | relay/internal/workspace/workspace.go:397-407 | every path the workspace holds is normalised |
| Repository.SnapshotPathsPassTheGuard | relay/internal/sandbox/docker.go:192-209 | every snapshot key of every run passes the builder's guard |
| Repository.Repo.Snapshot | relay/internal/workspace/workspace.go:240-276 | the loop collects exactly the head's files |
| Repository.Repo.ReadFile | relay/internal/workspace/workspace.go:280-312 | illegal path, no commits, or the snapshot's content or not found, and not found exactly for absent files where no other path obstructs; what is found depends on the path and the head only |
| Repository.Repo.ListFiles | relay/internal/workspace/workspace.go:316-344 | the strictly sorted list of the snapshot's keys |
| Repository.Repo.Log | relay/internal/workspace/workspace.go:348-383 | the head first, each followed by its parent, up to the limit or 50, and down to the first commit if that is sooner |
| Obstruction.FoundInEveryTreeIff | relay/internal/workspace/workspace.go:280-312 | a stored file is found in every tree that may be written for its file set if and only if no other path is above or below it; in some tree it always is |
| Obstruction.ReadIsCertainIff | relay/internal/workspace/workspace.go:140-312 | after a Commit, ReadFile is certain to give a file's content if and only if no other path obstructs it |
| Obstruction.HeadIsKeptIff | relay/internal/workspace/workspace.go:201-212 | a Commit is certain to return the old head if and only if it changes no file and no path is a directory of another |
| Obstruction.RepeatLosesFile | relay/internal/workspace/workspace.go:454-476 | two concrete calls: the second changes no file, moves the head, and the file it wrote is not found any more |
| BoxTables.Boxes.Create | relay/internal/store/boxes.go:54-72 | one new row with zero timestamps filled in; a taken id changes nothing |
| BoxTables.Boxes.Get | relay/internal/store/boxes.go:76-94 | finds a box only in its own namespace |
| BoxTables.Boxes.SetState | relay/internal/store/boxes.go:124-136 | updates state and time of that box only, not found in another namespace |
| BoxTables.Boxes.SetCurrentVersion | relay/internal/store/boxes.go:173-185 | updates the current version of that box only |
| BoxTables.Boxes.PutBundle | relay/internal/store/boxes.go:188-204 | inserts or replaces one row; the foreign key refuses an unknown box |
| BoxTables.Boxes.GetBundle | relay/internal/store/boxes.go:208-225 | the row of the key, or none |
| BoxTables.Boxes.ActiveByNamespace | relay/internal/store/boxes.go:160-168 | counts exactly the namespace's boxes that are not archived |
| BoxTables.Boxes.SandboxRunsByNamespace | relay/internal/store/boxes.go:143-154 | counts exactly the bundle rows of the namespace's boxes built since then |
| BoxEvents.ConsumedPlusBuffered | relay/internal/box/events.go:80-141 | over every run what a subscriber read plus what waits is exactly what it was offered while its channel had room, and at most 16 wait |
| BoxEvents.KeptIsSubsequence | relay/internal/box/events.go:132-140 | the kept events sit at strictly increasing places among the offered ones |
| BoxEvents.OnlyFullChannelsMiss | relay/internal/box/events.go:132-140 | an offered event is missing only if 16 were waiting at that moment |
| BoxEvents.Events.Subscribe | relay/internal/box/events.go:80-94 | exactly one fresh open subscription joins |
| BoxEvents.Events.Unsubscribe | relay/internal/box/events.go:98-113 | a channel is closed exactly when its subscription leaves the registry; a second call changes nothing |
| BoxEvents.Events.Publish | relay/internal/box/events.go:119-141 | each subscriber takes the event if it has room, and the result is the number of channels that grew |
| PublishingInvariant.StepKeepsInv | relay/internal/box/service.go:183-255 | every step of every job keeps: current versions name built and uploaded rows, published boxes have one, announced bundles are good |
| PublishingInvariant.RunKeepsInv | relay/internal/box/service.go:67-263 | the invariant over every interleaving and stop, and good rows never change |
| PublishingTheorems.PublishSafety | relay/internal/box/service.go:96-114 | in every reachable state a box with a current version shows a succeeded, uploaded bundle, and a published box has one |
| PublishingTheorems.GoodRowsAreFinal | relay/internal/store/boxes.go:188-204 | a succeeded row is never rewritten |
| PublishingTheorems.OneRowPerPublish | relay/internal/box/service.go:183-241 | each publish accounts for at most one bundle row, and every row for one publish |
| PublishingTheorems.DeliveredBundlesAreGood | relay/internal/box/service.go:242-254 | every delivered bundle_ready names a stored, succeeded, uploaded bundle with its URI, hash and size |
| PublishingTheorems.ArchiveIsFinalIff | relay/internal/box/service.go:236-241 | an archive stays in every continuation if and only if no call under way found the box unpublished and has not flipped it |
| PublishingTheorems.UndoingRun | relay/internal/box/service.go:236-241 | the run that undoes a threatened archive |
| PublishingReuse.ReuseIsSafeIff | relay/internal/box/service.go:150-157 | after a call began with version v, every box shows a built bundle in every continuation if and only if v is neither the box's current version nor one that a call under way can still make current |
| PublishingReuse.RunStaysSafe | relay/internal/box/service.go:150-241 | over every run whose calls reuse only such versions, boxes show built bundles |
| PublishingReuse.UnclaimedVersionsAreSafe | relay/internal/box/service.go:150-241 | the same from the empty tables on |
| PublishingReuse.FreshIsUnclaimed | relay/internal/box/service.go:317-323 | a fresh version is such a version |
| PublishingReuse.RightAfterMarking | relay/internal/box/service.go:183-194 | the first moment only: right after marking its row a call has hidden the bundle exactly if it reused the current version |
| PublishScript.ScriptEffect | relay/internal/box/service.go:183-255 | a job alone, however it ends, leaves at most one row, a box pointing at it only if it is good, the upload, and one event exactly on success |
| PublishScript.PublishThenGet | relay/internal/box/service.go:96-114 | after the steps of a call that made its version current, even one that then failed to flip the state, Get shows the bundle of that call |
| BoxService.Service.Gate | relay/internal/box/quota.go:57-94 | sandbox: refused exactly when the runs of the month have reached the cap, with the wait for the next month; storage: when the active boxes have; nothing is refused without a quota |
| BoxService.Service.Create | relay/internal/box/service.go:67-93 | refused by the storage gate with nothing changed, else one draft box as in the step model |
| BoxService.Service.Get | relay/internal/box/service.go:96-114 | the box and its current bundle, a missing one shown as none |
| BoxService.Service.Archive | relay/internal/box/service.go:261-263 | the archive step, not found in another namespace |
| BoxService.Sources | relay/internal/box/service.go:161-181 | the builder sees the head's snapshot after the given files were committed; a failed commit ends the call with the branch unchanged |
| BoxService.Service.Carry | relay/internal/box/service.go:183-255 | rows, upload, current version, state, event and answer of every way the call can go |
| BoxService.Service.BuildAndPublish | relay/internal/box/service.go:140-256 | refused by gate, lookup or archive, or ended by the workspace, with nothing changed; else tables and artifacts are those of the job's steps; for a new version no error is answered exactly if the box is now published with it and its row has succeeded, and exactly then subscribers are offered that row; a failed build or upload is reported as such and leaves all boxes as they were |
| Gate.Gate.CheckAndIncrement | relay/internal/billing/ws_gate.go:46-87 | heals a missing subscription; refuses exactly at the limit of the plan, which is the seeded one without a plan row; else counts one message and its bytes on that user and day only |
| Gate.CountAndPending | relay/internal/billing/ws_gate.go:78-87 | counted plus admitted-but-uncounted calls stay within limit - 1 + k |
| Gate.SoftCap | relay/internal/billing/ws_gate.go:78-87 | with k calls in flight a day's counter never passes limit - 1 + k, with one call never the limit |
| Gate.SoftCapIsTight | relay/internal/billing/ws_gate.go:78-87 | a run that reaches limit - 1 + k |
| Calendar.FromDays | relay/internal/store/billing.go:309-313 | the civil date of a day number, valid and converting back |
| Calendar.Epoch | relay/internal/store/billing.go:309-313 | day 0 is 1 January 1970 |
| Calendar.NextDay | relay/internal/store/billing.go:309-313 | each day has the date after that of the day before, by the lengths of the months and the leap rule |
| Calendar.WholeDays | relay/internal/usage/quota.go:192-201 | days and milliseconds of an instant round down |
| Calendar.DateRoundTrip | relay/internal/store/billing.go:309-313 | a valid date survives the conversion to a day number and back |
| Calendar.DayKeyOrder | relay/internal/store/billing.go:309-313 | day keys are in calendar order, both ways |
| Calendar.KeyDigits | relay/internal/store/billing.go:309-313 | the decimal digits of a day key are year, month and day |
| Calendar.MonthBounds | relay/internal/usage/quota.go:192-201 | the window of an instant runs from midnight on the first of its month to midnight on the first of the next |
| Calendar.MonthWindow | relay/internal/usage/quota.go:192-201 | every instant lies in its month, and a month lasts 28 to 31 days |
| Calendar.MonthsPartition | relay/internal/usage/quota.go:192-201 | two instants share a month exactly when one lies in the other's window |
| Calendar.NextMonthStarts | relay/internal/usage/quota.go:198-201 | the next month's instant is itself a month start |
| Calendar.MonthsAreMonotone | relay/internal/usage/quota.go:192-196 | later instants never have an earlier month |
| UsageDaily.Usage.IncrementBoth | relay/internal/store/billing.go:323-335 | adds to that user's day only, one row per user and day |
| UsageDaily.Usage.MessagesForDay | relay/internal/store/billing.go:338-351 | the messages of whichever row has this user and day, and zero if no row has |
| UsageDaily.Usage.MessagesForPeriod | relay/internal/store/billing.go:354-367 | the sum over the key range |
| UsageDaily.PeriodSumIsDaySum | relay/internal/store/billing.go:354-386 | the key-range sum is the sum over exactly the civil days of the period |
| Quota.LlmGateDecides | relay/internal/usage/quota.go:128-153 | a turn is let through exactly if both budgets have something left; the 5-day window is named first, and each with its wait |
| Quota.BoxGatesDecide | relay/internal/usage/quota.go:155-187 | the sandbox gate refuses exactly at its cap and says how long the month lasts; the storage gate exactly at its cap, with no wait |
| Quota.NewMonthIsEmpty | relay/internal/usage/quota.go:192-201 | at the hinted instant the new month has no spend and no runs |
| Quota.SandboxHintIsHonest | relay/internal/usage/quota.go:158-170 | at now + RetryAfter the sandbox gate has reopened if and only if its cap is not zero |
| Quota.MonthlyHintIsHonest | relay/internal/usage/quota.go:146-151 | at now + RetryAfter the monthly LLM gate fires if and only if its cap is zero |
| Quota.FiveDayHintPlusOne | relay/internal/usage/quota.go:140-145 | from 1 ms past the 5-day hint on that gate fires if and only if its cap is zero |
| Quota.FiveDayHintExactly | relay/internal/usage/quota.go:140-145 | at exactly the hint it still fires if and only if turns stamped in the refusal's own millisecond reach the cap |
| Quota.FiveDayHintIsShort | relay/internal/store/turns.go:154-168 | for every plan with a positive cap: one turn of that cost in the refusal's millisecond keeps the gate shut at the hinted instant |
| Caps.WorksTouchOneRow | relay/internal/box/service.go:183-241 | however far a publish gets and whatever it stamps, it touches one row and no archived flag |
| Caps.PublishCounts | relay/internal/store/boxes.go:143-168 | a publish leaves the active boxes as they were and counts at most one run more, in its own namespace |
| Caps.SequentialCaps | relay/internal/box/service.go:67-241 | in every sequential run active boxes and the month's runs stay within the plan at every later instant |
| Overshoot.TurnIsNoMore | relay/internal/box/service.go:67-263 | no step but an admission raises a namespace's boxes or runs, counting what calls in flight can still add |
| Overshoot.Overshoot | relay/internal/box/quota.go:57-94 | with at most k calls in flight a namespace never has more than cap - 1 + k active boxes, reopened ones included, nor runs in the month, restamped ones included; none with a cap of zero |
| OvershootTight.StorageOvershoots | relay/internal/box/quota.go:77-94 | a run that reaches cap - 1 + k boxes |
| OvershootTight.SandboxOvershoots | relay/internal/box/quota.go:57-73 | a run that reaches cap - 1 + k runs |
| Pricing.CostIsCeiling | relay/internal/usage/pricing.go:72-88 | nothing for no tokens; otherwise the least number of cents, and at least one, that covers the price with its markup |
| Pricing.PriceList | relay/internal/usage/pricing.go:33-57 | what a million tokens cost on each model, and that other names cost what deepseek-chat does |
| Pricing.SplitBillIsClose | relay/internal/usage/pricing.go:72-88 | n turns billed one by one cost between the price of the total and n - 1 cents more |
| Assembly.CollectedPerIndex | relay/internal/ai/openai_engine.go:343-362 | each index gets its concatenated arguments and its last non-empty id and name |
| Assembly.PartsInOrder | relay/internal/ai/openai_engine.go:343-362 | an index gets its own deltas in stream order, those without an index being of index 0, and their arguments strung together |
| Assembly.LastGivenWins | relay/internal/ai/openai_engine.go:343-362 | identifier and name are the last non-empty ones |
| Assembly.ReshuffleKeepsCalls | relay/internal/ai/openai_engine.go:343-381 | reshuffling that keeps each index's order changes no call |
| Assembly.NoCallLostIff | relay/internal/ai/openai_engine.go:366-381 | no call is lost if and only if the indices are 0..n-1 |
| Assembly.CallsInIndexOrder | relay/internal/ai/openai_engine.go:366-381 | then the calls come out in index order with everything their deltas carried |
| Assembly.ChoiceParts | relay/internal/ai/openai_engine.go:332-343 | text and tool deltas come out in stream order, and the text is all of them strung together |
| Assembly.LastUsageWins | relay/internal/ai/openai_engine.go:328-330 | the usage is the last one reported |
| Assembly.LastFinishWins | relay/internal/ai/openai_engine.go:332-334 | the finish reason is the last one given |
| Assembly.ForwardedMeans | relay/internal/ai/openai_engine.go:290-389 | there is a reply exactly if the stream did not break and all text was forwarded, and its text is what was forwarded |
| Assembly.RunOne | relay/internal/ai/openai_engine.go:290-389 | text, calls, usage and finish of the whole stream and the forwarded tokens; an error, and the tokens forwarded so far, when the stream breaks or the context ends |
| TurnTable.Turns.Insert | relay/internal/store/turns.go:49-60 | one more row unless the id is taken or the box unknown |
| TurnTable.Turns.Recent | relay/internal/store/turns.go:66-88 | rows of the box, newest first, up to the limit or 50, and all of them if there are fewer |
| TurnTable.ByTimeSorts | relay/internal/store/turns.go:70-72 | the query's order is newest first and loses no row |
| TurnTable.NewestIsNewest | relay/internal/store/turns.go:66-88 | no row left out is newer than one returned |
| Conversation.Engine.LoadHistory | relay/internal/ai/openai_engine.go:394-419 | stored rows oldest first, system prompts dropped, unreadable rows skipped |
| Conversation.Engine.RunTools | relay/internal/ai/openai_engine.go:230-254 | each call is announced, run, reported and answered in order; if the context ends, the call cut off may have been announced |
| Conversation.Engine.Exchange | relay/internal/ai/openai_engine.go:212-255 | one iteration: completion, totals, messages, tools, and how it ends |
| Conversation.Engine.Converse | relay/internal/ai/openai_engine.go:212-255 | the loop ends at the first reply without calls, the first failure or after MaxIters, with exact messages, totals and frames |
| Conversation.Engine.Run | relay/internal/ai/openai_engine.go:163-284 | frames and the stored row of a whole turn: tokens, price and finish are the sums and the last word of the replies, the messages are prompt, history and what the turn added; a turn that fails, is abandoned, cannot read its history or cannot write its row stores nothing |
| Conversation.TurnAccount | relay/internal/ai/openai_engine.go:212-255 | whatever provider and tools do: the turn starts with the user's message, keeps one assistant message per reply with the text that was forwarded and the calls, totals the prompt and completion tokens of the replies, has shown all forwarded text, and stops exactly at the first reply without calls, the first failure, the first unanswered call or the last iteration |
| Conversation.ToolFramesReport | relay/internal/ai/openai_engine.go:230-254 | each completed call is announced with its name and arguments and reported with its result |
| Conversation.TerminalIsLast | relay/internal/ai/openai_engine.go:212-280 | a terminal frame is the last, and Finished exactly when the turn got to persisting |
| Memory.NextHistory | relay/internal/ai/openai_engine.go:394-419 | whatever the stamps, the next history is what older rows tell, then all that the last turn was given, then what it said, then what rows stamped no earlier tell; behind 20 of those the turn is not told at all |
| Memory.NothingIsForgotten | relay/internal/ai/openai_engine.go:184-272 | with increasing stamps the history ends with all turns' own messages verbatim, in order, beyond 20 rows too |
| Memory.CompleteIffInOrder | relay/internal/ai/openai_engine.go:394-419 | if no two turns of the box end alike, the history is complete after every turn if and only if the stamps increase strictly |
| Memory.LateTurnIsMisplaced | relay/internal/store/turns.go:66-72 | a turn stamped no later than an earlier one does not come last in the history |
| Memory.HistoryDoubles | relay/internal/ai/openai_engine.go:184-272 | while all rows are read, the next history is the last one with that whole history and the turn's own messages put in once more |
| Memory.HistoryIsExponential | relay/internal/ai/openai_engine.go:184-272 | whatever the stamps, n turns, up to 20, hand the next one at least 2^n - 1 messages |
| Memory.SameMillisecondReorders | relay/internal/store/turns.go:66-72 | two concrete turns of one millisecond: the history ends with the first one, so it is not complete |
| Pairing.OwnIsPaired | relay/internal/ai/openai_engine.go:212-255 | a turn that is stored has answered every call right after it, in order |
| Pairing.TablesTellPaired | relay/internal/ai/openai_engine.go:394-419 | if every stored turn is paired, so is what every row tells |
| Sessions.SessionTable | relay/internal/ai/openai_engine.go:257-274 | over any session the table holds exactly the rows that the turns which lasted stored |
| Sessions.SessionIsSound | relay/internal/ai/openai_engine.go:184-255 | in any session, whatever provider and tools answer, every stored turn adds at least one message, no prompt, and answers all its calls |
| Sessions.EveryRequestIsPaired | relay/internal/ai/openai_engine.go:184-255 | in any session every message list a turn sends or stores is paired, history included |
| Sessions.SessionsRemember | relay/internal/ai/openai_engine.go:394-419 | in any session the history is complete with increasing stamps, and after every turn only then if no two turns end alike |
| Sessions.SessionsGrow | relay/internal/ai/openai_engine.go:257-274 | in any session the next history at least doubles with each stored turn, up to 20 |
| EventStream.DecodeOfPayload | relay/internal/handler/ai.go:172-202 | each printed payload decodes to its frame, token counts narrowed to 32 bits |
| EventStream.FittingCountsArrive | appunvs/android/app/src/main/java/com/appunvs/runtime/net/AISSEClient.kt:107-112 | a frame arrives unchanged unless a token count does not fit 32 bits, which then arrives as 0 |
| EventStream.PrintedIsReceived | appunvs/android/app/src/main/java/com/appunvs/runtime/net/AISSEClient.kt:64-118 | the client gets exactly the printed frames up to the first terminal one |
| BrokenStream.TruncationGivesPrefix | appunvs/android/app/src/main/java/com/appunvs/runtime/net/AISSEClient.kt:64-83 | a stream cut after any number of bytes, also inside a character, yields a prefix of them |
| EventStream.CrlfEndsLine | appunvs/android/app/src/main/java/com/appunvs/runtime/net/AISSEClient.kt:64-66 | a line may end in CR LF |
| EventStream.BlankLineResets | appunvs/android/app/src/main/java/com/appunvs/runtime/net/AISSEClient.kt:66-69 | after a blank line data without an event of its own yields nothing |
| EventStream.Drain | relay/internal/handler/ai.go:153-165 | the handler writes the records in order until the client is found gone |
| EventStream.Turn | appunvs/android/app/src/main/java/com/appunvs/runtime/net/AISSEClient.kt:59-84 | the line loop emits exactly what its lines call for, and stops at the first terminal frame |
| EventStream.TurnReachesClient | relay/internal/handler/ai.go:153-213 | every frame of every turn reaches a connected client in order, changed only where a count does not fit 32 bits |

## Left out

- Stream trimming by the approximate length cap, and Redis or SQLite failures between the commit of a statement and its reply, except a lost XADD reply (`AppendLost`).
- The gap between the registry unlock and the sends in Hub.Broadcast and Events.Publish, where a channel closed in between makes the send panic: one call is one step here.
- WriteLoop's pings and write errors, ReadLoop's framing and limits.
- validateAgainstSchema beyond accept or reject, and the text of JSON payloads.
- The git library's own checks and formats: encoding may refuse an entry order, which the `stored` flag of a call covers; only regular files.
- Log truncation, opening the workspace, and the artifact store's files beyond the set of contents.
- PublishingReuse.ReuseIsSafeIff: is about what boxes show; an event announced for a version that is reused later may name a row that is being rebuilt.
- Floating-point rounding in CostCents: prices are exact integers here.
- The error record written when the engine refuses to start, and JSON values of other shapes than the relay prints.
- Anthropic and Gemini engines, authentication, pairing, Stripe, migrations, HTTP routing, builds, UI and native code.
