# Collaboration, conversion and storage protocols of the CAD viewer platform

A Dafny model of the protocols that hold the platform together, with proofs of what they keep over whole runs.
`dafny verify dfyconfig.toml` checks everything.

**WebSocket rooms** (`apps/ws-server/src/server.js`). `Rooms` is one replica as a state machine: every event handler is
one atomic step (`Enabled`, `Next`), authorisation replies are in flight between steps, timers are deadlines that the
clock cannot pass. `WsServer` is the same replica as a class that updates its maps in place; each method is proved to do
exactly what the step does. `RoomSafety` proves the invariants of every run, `Transitions` what each step does to a connection, `Audiences`,
`Presence` and `Answers` who is told what, `Heartbeats`, `CursorThrottle` and `ReadyQueue` the timing and ordering
properties; `Incidents` holds two short runs. `Fanout` puts any number of replicas
together with Redis publications, origin ids and API messages, and proves exactly-once delivery. `Json` and `RoomEvents`
model JSON values, what survives `JSON.stringify`, and the normalised shape of each event. Ids of broadcasts, the
broadcast log and the record of granted authorisations are history: no step reads them to decide anything.

**Conversion tasks** (`apps/worker/app/tasks`). `Converter` is one delivery of the glTF or IFC task as a function of the
stored state and of a `Job`, which says what goes wrong in the run: any stage may raise, reading the row and making the
temporary directories may raise, the calls that take and delete the lock may be lost before or after Redis has carried
them out, and the writes of the failure path may fail.
`ConversionTasks` is the task itself, statement by statement, proved equal to it, and `Reports` says what a run
publishes, which webhook it sends and how it ends. `TaskLock` is the Redis lock under
redelivery with a clock, crashes and time limits. `Chunks`, `WorkDir` and `ChunkUrls` follow the bytes of an output
through splitting, uploading, the key list in the metadata, the URL lists and back. `Clamd` is the INSTREAM exchange.

**API** (`apps/api/app`). `Pagination`, `Base64`, `Uuid` and `Cursor` are the keyset listings and their cursor codec,
`RateLimit` and `RefreshTokens` the Redis counters and tokens as interleaved atomic steps, `Membership` the project
members over every history of requests, `StorageKey` the file-name check, the key and its parser and the route to a
converter, `BcfExport` the batched comment grouping.

## Results that differ from the code's own description

- An annotation payload with an infinite number (JSON text `1e999`) is shown by the sender's replica but not by the
  others, because `JSON.stringify` turns it into null before `||` chooses a field. `RoomEvents.ReplicasShowTheSame` says
  exactly when all replicas agree, `Fanout.SamePayload` says it of any two replicas in any run, and
  `RoomEvents.InfinityShown` gives the two payloads of one such message.
- LEAVE_MODEL does not ask whether the client is in the room, so it announces USER_LEFT to any room that exists; no other
  step tells a room that its sender is in neither before nor after (`Presence.MessageTellsOther`,
  `Presence.PresenceStaysInRoom`). In `Incidents.ForeignLeaveIsTold` a client that never entered any room is announced.
- A queued message whose text is JSON null throws while the queue is drained: the rest of the queue is lost and the close
  listeners are never attached (`ReadyQueue.ProcessedInOrder`, `WsServer.WsServer.InitDone`). The heartbeat removes such
  a client all the same (`Heartbeats.ClosedIsRemoved`); until then it may stay in its room although its socket is closed
  (`Incidents.NullLosesTheQueue`).
- The IFC chunk list names every output once if and only if no file is named like a part of a split one, split or not;
  `Chunks.ClashReadsWrong` gives a directory where the bytes read back are wrong.
- With no chunks the chunks endpoint answers with the bare prefix, which neither MODEL_READY nor the share link lists
  (`ChunkUrls.EndpointsAgree`, `Converter.ReadyIsDownloadable`).
- The lock stays behind when reading the row or making the temporary directories raises, when there is no raw key, and
  when the delete never reaches Redis (`Converter.LockLeft`); the path without a raw key sets the status but publishes no event
  (`Converter.RunSettles`).
- The retry policy described in `error_handler.py` never repeats work whose failure could be recorded: the retry finds a
  terminal status (`Converter.RetryFindsTerminalStatus`).
- The lock's delete does not look whose key it is. Every holder has its own key all the time if and only if no acquire
  failed open and each second delete found nobody holding the lock (`TaskLock.KeyKeptExactly`). A soft time limit that
  fires after the release makes such a second delete, and `TaskLock.LateReleaseBreaksTheLock` is a run in which that
  happens at 1500 s and takes the key of the next run.
- Exactly the first `limit` requests of an hour are admitted if and only if no increment that slipped past its hour found
  its counter expired and its bucket full (`RateLimit.FirstRequestsExactly`, `RateLimit.LateIncrementExactly`);
  `RateLimit.LateRun` is a run in which one does, a millisecond after the hour.
- The batched BCF query and the query per annotation must give the same comments in the same order if and only if no two
  comments of the annotation have one time (`BcfExport.AgreeExactly`).

## Model

| member | source | states |
|---|---|---|
| Json.OnWireIdempotent | apps/ws-server/src/server.js:266-302 | a value that went through JSON text once is not changed by going through it again |
| Json.OnWireIsJson | apps/ws-server/src/server.js:266-302 | what comes back from JSON text holds nothing undefined and no infinity, and a value comes back unchanged if and only if it holds none |
| Json.FalsyAre | apps/ws-server/src/server.js:236-264 | the values that `or` and `if` pass over: undefined, null, false, zero and the empty text |
| RoomEvents.RelaysShowTheSame | apps/ws-server/src/server.js:488-497 | a relayed event looks the same on the sender's replica and after Redis exactly when it carries no infinity where `or` chooses |
| RoomEvents.ReplicasShowTheSame | apps/ws-server/src/server.js:236-302 | for every room event, all replicas show the same payload if and only if it carries no infinity in a chosen field |
| RoomEvents.InfinityShown | apps/ws-server/src/server.js:236-302 | the payloads of ANNOTATION_CREATED with an infinite number: annotation null on the sender's replica, an empty object on the others |
| RoomEvents.RelayShown | apps/ws-server/src/server.js:236-264 | for each relay kind, the fields a browser is shown, where each comes from, and that there are no others |
| RoomEvents.JoinShown | apps/ws-server/src/server.js:356-366 | USER_JOINED shows exactly the id, the name and a null avatar of its user |
| RoomEvents.LeaveShown | apps/ws-server/src/server.js:394-402 | USER_LEFT shows exactly its user's id |
| RoomEvents.CursorShown | apps/ws-server/src/server.js:464-473 | CURSOR_MOVED shows exactly its user's id and the position that was sent |
| RoomEvents.Vector3Is | apps/ws-server/src/server.js:224-234 | the accepted positions are the arrays of just three finite numbers |
| RoomEvents.ClientAndApiAlike | apps/ws-server/src/server.js:236-264 | the client's and the API's envelope are shown alike, for an update if and only if `updated_by` names the sender |
| RoomSafety.NextKeeps | apps/ws-server/src/server.js:356-402 | every handler keeps the room invariant, and no user, cleaning or authorisation is ever taken back |
| RoomSafety.RoomsMatchClients | apps/ws-server/src/server.js:356-402 | in every reachable state a client is in a room exactly when it is its current model, no stored set is empty, every member is registered |
| RoomSafety.CleanedForever | apps/ws-server/src/server.js:642-658 | a cleaned connection stays cleaned over the rest of the run |
| RoomSafety.CleanedStaysOut | apps/ws-server/src/server.js:602-663 | after any handler that runs cleanup the client is in no room and no user set ever again, with replies in flight or cleanup run twice |
| RoomSafety.GrantsOnlyByReply | apps/ws-server/src/server.js:376-392 | an authorisation appears only in the step of a reply that grants it |
| RoomSafety.MembersWereAuthorised | apps/ws-server/src/server.js:376-392 | under any interleaving of joins, replies, switches and closes, a room member was granted that model by an earlier reply |
| RoomSafety.BroadcastsStayInRoom | apps/ws-server/src/server.js:443-497 | every cursor or annotation broadcast went to the sender's own room, never back to the sender, with an earlier grant |
| Transitions.StepConn | apps/ws-server/src/server.js:336-663 | what each handler does to its connection: its phase, whether its socket is open, whether it is cleaned up and which room it is in, and that it touches no other |
| Transitions.JoinsConserved | apps/ws-server/src/server.js:376-392 | over every run each JOIN_MODEL that is processed is still under way or has been answered, once |
| Transitions.InitialIsAsked | apps/ws-server/src/server.js:559-600 | in every run a connection that names a model is not initialised before the answer about it, and one whose subscription failed is closed |
| Answers.MessagesReadBack | apps/ws-server/src/server.js:421-502 | each of the nine messages, written as JSON text, is read as what was sent |
| Answers.OthersReadAsUnknown | apps/ws-server/src/server.js:421-502 | any other text is ignored, and exactly JSON null throws |
| Answers.StepAnswers | apps/ws-server/src/server.js:376-502 | a step answers only its own client: PING at a tick, PONG for each PING, a refusal for each join not authorised; the first name learnt is kept |
| Answers.RunAnswers | apps/ws-server/src/server.js:376-625 | over every run the PINGs, PONGs and refusals sent to a client, in order, are exactly those of its steps |
| RoomEffects.NextEffect | apps/ws-server/src/server.js:421-502 | any own step only appends to the log, numbers its broadcasts consecutively and keeps outboxes and throttle clocks consistent with the log |
| RoomEffects.DrainEffect | apps/ws-server/src/server.js:631-639 | draining the queue has the effect of its messages one after the other |
| Audiences.StepReachesRooms | apps/ws-server/src/server.js:266-302 | every broadcast of every handler, those of a drained queue included, goes to the open members that its room had before the handler ran, but the handler's own client |
| Presence.JoinTells | apps/ws-server/src/server.js:356-366 | a switch of rooms shows the old room who has left and then the new one who has joined and under which name, each other open member once, nobody else anything |
| Presence.CleanupTells | apps/ws-server/src/server.js:642-658 | cleanup shows the room which user has left; run again it tells nobody anything |
| Presence.ReplyShows | apps/ws-server/src/server.js:376-392 | the answer to a join tells exactly that if it is granted, the socket open and the room another one, and else nothing |
| Presence.LeaveShows | apps/ws-server/src/server.js:394-441 | LEAVE_MODEL shows each other open member of the named room which user has left, and nobody else anything |
| Presence.CleanupShows | apps/ws-server/src/server.js:602-663 | of closes, ticks and missed pongs exactly those that clean up tell the client's room that its user has left |
| Presence.MessageTellsOther | apps/ws-server/src/server.js:421-502 | a message tells a room that its sender is not in if and only if it is LEAVE_MODEL for another room that exists |
| Presence.PresenceStaysInRoom | apps/ws-server/src/server.js:356-402 | in every run a presence broadcast goes to a room its sender is in before or after the step, except exactly for a LEAVE_MODEL, at once or from the queue, for a room it is not in |
| Incidents.ForeignLeaveIsTold | apps/ws-server/src/server.js:394-441 | a run from the start in which a member of a room is told that a client left that had never entered it |
| CursorThrottle.CursorRate | apps/ws-server/src/server.js:443-475 | at most floor(W / T) + 1 cursor broadcasts of one connection in any window of W ms, for every run |
| CursorThrottle.RefusedMoveChangesNothing | apps/ws-server/src/server.js:443-475 | a cursor move changes nothing if and only if there is no room, a vector is malformed or the throttle refuses it |
| Heartbeats.OnePongTimer | apps/ws-server/src/server.js:602-625 | at most one pong timer of a connection is pending in any reachable state |
| Heartbeats.TicksApart | apps/ws-server/src/server.js:602-618 | ticks are exactly 30 s apart, the first 30 s after initialisation |
| Heartbeats.SilentClientsAreRemoved | apps/ws-server/src/server.js:602-618 | if a PING, or the start of the heartbeat, is at step j and no PONG comes in after the next PING, then 40 s after step j the client is closed and in no map |
| Heartbeats.TimeoutIsEarned | apps/ws-server/src/server.js:602-618 | the heartbeat closes a client only 10 s after a PING with no PONG since, so one that answers in time is never closed |
| Heartbeats.ClosedIsRemoved | apps/ws-server/src/server.js:602-618 | a ready client whose socket has closed is in no map once the next tick has passed, whether or not cleanup listens for the close |
| Heartbeats.ClosedDuringInit | apps/ws-server/src/server.js:602-618 | a socket that closed during initialisation is gone from every map by the first tick |
| ReadyQueue.QueueBeforeReady | apps/ws-server/src/server.js:414-419 | until it is ready a connection holds the first hundred messages that arrived, in order, and has processed none |
| ReadyQueue.ProcessedInOrder | apps/ws-server/src/server.js:507-517 | a ready connection has processed, in arrival order, the first hundred earlier messages up to one that throws, and every later one |
| Incidents.NullLosesTheQueue | apps/ws-server/src/server.js:507-663 | a run from the start in which a message behind a JSON null is never handled and the closed client stays in its room and user set |
| Fanout.SysNextKeeps | apps/ws-server/src/server.js:286-302 | local handlers, deliveries and API publications keep the system invariant for any number of replicas |
| Fanout.NoDuplicates | apps/ws-server/src/server.js:103-113 | over every system run no client gets a room message twice, and one publisher's messages arrive in its order |
| Fanout.ExactlyOnce | apps/ws-server/src/server.js:266-302 | each broadcast a replica has handled is held, once and with the normalised payload, by exactly the clients that were open members of the room when that step ran, but the sender |
| Fanout.PublicationReachesRoom | apps/ws-server/src/server.js:103-113 | when a replica handles a publication from elsewhere, exactly the open members of its room there hold it ever after, once; the own echo changes nothing |
| Fanout.MessageReachesRoom | apps/ws-server/src/server.js:443-497 | a relayed event or an accepted cursor move is held ever after by exactly the other open members of the sender's current room, once, and shows them the sender and what was sent; a refused one is sent to nobody |
| Fanout.EveryReplicaHandles | apps/api/app/core/redis.py:108-142 | each publication is handled by or waits at every replica, never both elsewhere; API messages are skipped by none |
| Fanout.SamePayload | apps/ws-server/src/server.js:266-302 | in every run two receivers show a publication alike; its publisher shows what a receiver does if and only if the event that it is carries no infinity where a field is chosen |
| WsServer.WsServer.SendToRoom | apps/ws-server/src/server.js:266-284 | the loop appends the payload to the outbox of exactly the open clients of the room but the excluded one |
| WsServer.WsServer.BroadcastToLocalRoom | apps/ws-server/src/server.js:266-284 | the in-place broadcast is the specified one |
| WsServer.WsServer.JoinRoom | apps/ws-server/src/server.js:356-366 | leaves the old room, enters the new one and announces it, or does nothing in the same room |
| WsServer.WsServer.JoinReply | apps/ws-server/src/server.js:376-392 | the part of a join after the authorisation reply, with the closed-socket check |
| WsServer.WsServer.LeaveRoom | apps/ws-server/src/server.js:394-402 | removal, announcement, deletion of the empty room and of the current model |
| WsServer.WsServer.Cleanup | apps/ws-server/src/server.js:642-658 | heartbeat stopped, room left, user set pruned |
| WsServer.WsServer.OnCursorMove | apps/ws-server/src/server.js:443-475 | the cursor handler is the specified move, and changes nothing exactly when one of its three refusals applies |
| WsServer.WsServer.ProcessMessage | apps/ws-server/src/server.js:421-502 | one message is handled as the state machine says |
| WsServer.WsServer.OnMessage | apps/ws-server/src/server.js:507-517 | queued below the cap, dropped at it, processed when ready; throws exactly on JSON null when ready |
| WsServer.WsServer.SubscribeDone | apps/ws-server/src/server.js:559-587 | registration after the confirmed subscription, refusal otherwise |
| WsServer.WsServer.InitDone | apps/ws-server/src/server.js:627-663 | heartbeat started, gate opened and queue drained as one step; the close listeners are attached if and only if no queued message threw |
| WsServer.WsServer.DrainQueue | apps/ws-server/src/server.js:631-639 | the loop handles exactly the queued messages before the first that throws, in order |
| WsServer.WsServer.OnHeartbeat | apps/ws-server/src/server.js:603-617 | a tick cleans up a closed socket or sends PING and arms the pong timer |
| WsServer.WsServer.OnPongTimer | apps/ws-server/src/server.js:610-616 | a missed pong closes the socket and cleans up |
| WsServer.WsServer.OnClose | apps/ws-server/src/server.js:659-663 | close or error runs cleanup once the listeners are attached |
| WsServer.WsServer.OnRoomEvent | apps/ws-server/src/server.js:103-113 | own publications are skipped, all others broadcast locally |
| TaskLock.KeepsExactly | apps/worker/app/tasks/common.py:419-456 | one step keeps "every holder has its own key, which outlives its time limit" if and only if it is neither an acquire let through without setting the key nor a second delete, carried out while a run holds the lock |
| TaskLock.KeyKeptExactly | apps/worker/app/tasks/common.py:422-456 | over every run, all holders have their keys all the time if and only if no acquire failed open and each second delete that was carried out found nobody holding |
| TaskLock.MutualExclusion | apps/worker/app/tasks/common.py:422-456 | in every run with harmless steps only, two runs are never both between acquire and release, and the holder has its key |
| TaskLock.KeyOutlivesItsHolder | apps/worker/app/tasks/common.py:419-456 | the step that ends a holder's key is that holder's own release, never the clock nor another's delete |
| TaskLock.ReleaseIsOwn | apps/worker/app/tasks/common.py:446-456 | the unconditional delete only ever finds the caller's own key |
| TaskLock.LockHeals | apps/worker/app/tasks/common.py:419-419 | in every run a key is not there 2100 s later, and no key is unless some run acquired in between |
| TaskLock.LockLasts | apps/worker/app/tasks/common.py:419-433 | a key that nobody deletes is there for exactly 2100 s |
| TaskLock.LostKeyBreaksTheLock | apps/worker/app/tasks/common.py:422-443 | any run that leaves a holder without a key goes on, in two steps, to two holders |
| TaskLock.LateReleaseBreaksTheLock | apps/worker/app/tasks/ifc.py:592-605 | a run from the start in which a second release, when the soft time limit fires at 1500 s, ends with two holders |
| TaskLock.FailOpenBreaksTheLock | apps/worker/app/tasks/common.py:441-443 | a run from the start, without any second release, in which an acquire without Redis makes two holders |
| Converter.StagesFrom | apps/worker/app/tasks/gltf.py:246-317 | the stage block stops at the first step that raises with exactly the earlier steps done, or runs to the end |
| Converter.RunSettles | apps/worker/app/tasks/gltf.py:199-350 | a run ends with terminal status, free lock and agreeing last event if and only if the row was read and exists, what went wrong was recorded and announced, and the key that was taken was deleted |
| Converter.BlockSettles | apps/worker/app/tasks/gltf.py:240-350 | a run that reaches the stage block settles if and only if nothing raised or the failed status was written, and its key was deleted |
| Converter.LockLeft | apps/worker/app/tasks/gltf.py:203-244 | an admitted run calls release once, unless reading the row or making the directories raised or there is no raw key; the key stays exactly then and when the delete does not reach Redis |
| Converter.TerminalIsFinal | apps/worker/app/tasks/common.py:396-412 | after a terminal status no sequence of redeliveries or retries changes anything |
| Converter.GltfChunks | apps/worker/app/tasks/common.py:347-379 | a glTF output is stored in pieces of at most 32 MB, named after it and numbered from 0 |
| Converter.RetryFindsTerminalStatus | apps/worker/app/tasks/error_handler.py:56-148 | a retry is a no-op whenever the failure was recorded, and works again exactly when the status is not terminal |
| Converter.ReadyIsDownloadable | apps/worker/app/tasks/ifc.py:347-377 | whenever a run sets ready, following its URL list gives the converter's output byte for byte; prefix, keys and the metadata entry are the task's own; the share link gives that list, the chunks endpoint if and only if it is not empty |
| Converter.ReadyEventIsTrue | apps/worker/app/tasks/gltf.py:298-317 | at every point of the stage block, a published MODEL_READY has its chunks, metadata and status in place |
| Reports.BlockReports | apps/worker/app/tasks/gltf.py:246-350 | a run of the stage block, told by its first fault: the exact events, the stage and exception name reported, the webhook, and failure or retry |
| Reports.RunReports | apps/worker/app/tasks/error_handler.py:79-148 | over every run "model.ready" is sent if and only if every stage went through, "model.failed" once for a failure or retry unless lost, and no other webhook |
| Reports.TooLargeIsRefused | apps/worker/app/tasks/common.py:33-47 | a file over 50 MB, 500 MB or 5 GB by its plan, as stored or as downloaded, never completes and fails at the size check |
| ConversionTasks.Worker.AcquireTaskLock | apps/worker/app/tasks/common.py:422-443 | SET NX; an error lets the run through, whether Redis had set the key or not |
| ConversionTasks.Worker.ReleaseTaskLock | apps/worker/app/tasks/common.py:446-456 | the delete; an error is swallowed, whether Redis had deleted the key or not |
| ConversionTasks.Worker.HandleTaskFailure | apps/worker/app/tasks/error_handler.py:79-148 | status, MODEL_FAILED with stage and exception name, and the "model.failed" webhook are each attempted, each failure swallowed |
| ConversionTasks.Worker.UploadChunks | apps/worker/app/tasks/gltf.py:271-284 | the upload loop does the upload steps in order and collects their keys, or stops at the first that raises |
| ConversionTasks.Worker.Admit | apps/worker/app/tasks/gltf.py:198-244 | status check, lock, row, raw key, plan size and temporary directories, in that order, with each early ending |
| ConversionTasks.Worker.ProcessGltf | apps/worker/app/tasks/gltf.py:189-350 | the glTF task, step by step, is the specified run |
| ConversionTasks.Worker.ProcessModel | apps/worker/app/tasks/ifc.py:394-605 | the IFC task, step by step, is the specified run |
| WorkDir.WorkDir.SplitBinaryChunks | apps/worker/app/tasks/common.py:350-379 | the read loop writes exactly the parts and lists exactly their names |
| WorkDir.WorkDir.SplitXktChunks | apps/worker/app/tasks/ifc.py:347-377 | the loop over all files, each read as earlier ones left it, is the specified splitting |
| Chunks.PartsForm | apps/worker/app/tasks/common.py:366-378 | parts are non-empty, at most max long, ceil(size / max) many, all but the last full, and concatenate to the file |
| Chunks.PartNameInjective | apps/worker/app/tasks/common.py:375-375 | a part's name determines its stem and its number, for every stem |
| Chunks.SplitReadsBack | apps/worker/app/tasks/common.py:350-379 | the parts, at most max long and numbered from 0, read back in listed order to the file, and no name is listed twice, whatever else the directory holds |
| Chunks.ClashListsTwice | apps/worker/app/tasks/ifc.py:347-377 | a file named like a part of a split file is listed twice |
| Chunks.ListIsRight | apps/worker/app/tasks/ifc.py:347-377 | the list is free of duplicates if and only if no file is named like a part of a split one, and then reads back all outputs byte for byte |
| Chunks.ClashReadsWrong | apps/worker/app/tasks/ifc.py:347-377 | a directory in which a clash loses a file's content |
| ChunkUrls.CdnUrlInjective | apps/worker/app/tasks/common.py:86-98 | different keys have different URLs under any configuration |
| ChunkUrls.UrlIs | apps/worker/app/tasks/common.py:86-98 | an object is found under /files/ or under the CDN address and one slash, however many that ends in |
| ChunkUrls.EndpointsAgree | apps/api/app/services/share.py:78-89 | for any stored metadata, when exactly the two endpoints agree |
| ChunkUrls.DownloadReads | apps/api/app/services/storage.py:268-275 | the bytes behind a URL list are the listed files in order |
| Clamd.ReceiveFrames | apps/worker/app/tasks/scan.py:132-141 | a decoder of length-prefixed frames recovers any sequence of non-empty chunks and leaves what follows |
| Clamd.StreamRoundTrip | apps/worker/app/tasks/scan.py:129-141 | the receiver gets exactly the file, nothing is left, for every file |
| Clamd.StreamsApart | apps/worker/app/tasks/scan.py:129-141 | no stream is a proper beginning of another; different files have different streams |
| Clamd.FrameSizes | apps/worker/app/tasks/scan.py:37-39 | every data frame holds 1 to 65536 bytes, all but the last full, and the stream's length is accounted for |
| Clamd.Be32Order | apps/worker/app/tasks/scan.py:132-141 | lengths are written highest byte first |
| Clamd.ReplyUnderstood | apps/worker/app/tasks/scan.py:143-154 | one complete reply is read whole and no further, however the network cuts it |
| Clamd.CleanExactly | apps/worker/app/tasks/scan.py:153-158 | a text is clean if and only if it ends in "OK" but for white space |
| Clamd.SpaceChars | apps/worker/app/tasks/scan.py:153-158 | the white space that is stripped, character by character |
| Clamd.UnfinishedReply | apps/worker/app/tasks/scan.py:143-151 | when the connection closes early the result is what has come in |
| Clamd.NoReplyIsNotClean | apps/worker/app/tasks/scan.py:143-158 | without a reply a file is not clean |
| Clamd.Verdicts | apps/worker/app/tasks/scan.py:153-158 | however the network cuts it, a reply is read as clean if and only if it ends in "OK": not for a FOUND reply, whatever the name, nor for an error |
| Clamd.Connection.SendFile | apps/worker/app/tasks/scan.py:130-141 | the loop sends the command and exactly the specified stream |
| Clamd.Connection.ClamdScan | apps/worker/app/tasks/scan.py:104-159 | stream sent, reply read to its terminator or the end of the connection, clean if and only if its text ends in "OK" |
| Base64.DecodeEncoded | apps/api/app/services/models.py:48-55 | the lenient decoder inverts the URL-safe encoder of section 5 of RFC 4648 on all bytes |
| Base64.DecodeUnpadded | apps/api/app/services/models.py:53-55 | a text that lost its padding decodes if and only if there was none to lose |
| Base64.EncodedForm | apps/api/app/services/models.py:48-50 | quads of URL-safe symbols, ceil(n / 3) of them, with the padding that section 5 of RFC 4648 asks for |
| Base64.EncodedGroup | apps/api/app/services/models.py:48-50 | each three bytes become the four base-64 digits of their 24 bits, in the alphabet of table 2 of RFC 4648 |
| Base64.TailVectors | apps/api/app/services/models.py:48-50 | one and two bytes at the end, as in section 10 of RFC 4648 |
| Base64.UnknownSkipped | apps/api/app/services/models.py:53-55 | characters outside the alphabet never change what is decoded, or whether |
| Uuid.ParsePrinted | apps/api/app/services/models.py:49-57 | parsing a printed UUID gives it back, for all 2^128 |
| Uuid.PrintedForm | apps/api/app/services/models.py:49-49 | 36 characters, hyphens at four places, lower-case hexadecimal elsewhere |
| Uuid.PrintedDigit | apps/api/app/services/models.py:49-49 | digit k of the text is digit k of the number, the highest first |
| Cursor.DecodeEncoded | apps/api/app/services/models.py:48-59 | decoding an encoded cursor gives back its timestamp and id, for every pair |
| Cursor.DecodedExactly | apps/api/app/services/models.py:53-59 | a text is a cursor if and only if it is Base64 of a timestamp, a bar and a UUID, which are then its key |
| Cursor.RefusedExactly | apps/api/app/services/models.py:62-83 | a listing is refused exactly for a cursor that is not empty and does not decode; an empty one starts anew |
| Cursor.Injective | apps/api/app/services/projects.py:25-39 | distinct pairs have distinct cursors |
| Cursor.TextWalk | apps/api/app/services/models.py:62-96 | a walk that sends back each cursor as text is a walk by keys, and no handed-out cursor is refused |
| Cursor.TextWalkIsFullQuery | apps/api/app/services/models.py:62-96 | on a fixed table the responses up to the null cursor concatenate to the full sorted query, in ceil(n / limit) pages |
| Pagination.QueryRows | apps/api/app/services/models.py:62-83 | a query returns exactly the matching rows below its cursor, newest first |
| Pagination.PageCuts | apps/api/app/services/models.py:82-94 | a page is the head of what lies below its cursor and its own cursor cuts off exactly the rest; null exactly when nothing is left |
| Pagination.WalkIsFullQuery | apps/api/app/services/projects.py:76-123 | following the cursors on a fixed table gives exactly the full query and ends with null, for every limit of at least 1 |
| Pagination.NoRowTwice | apps/api/app/services/models.py:261-299 | while rows come and go between pages, no row is returned twice and keys strictly descend across the whole walk |
| Pagination.NothingMissed | apps/api/app/services/models.py:261-299 | a finished walk has returned every row that matched throughout |
| RateLimit.NextKeeps | apps/api/app/middleware/rate_limit.py:113-149 | every interleaved step, late increments among them, keeps: no counter exceeds its increments, and the current hour's counter is their number |
| RateLimit.IncrementExact | apps/api/app/middleware/rate_limit.py:116-135 | an increment gets the verdict that its place among the requests deserves if and only if its bucket was not reopened: full, with a counter below the limit |
| RateLimit.FirstRequestsExactly | apps/api/app/middleware/rate_limit.py:113-149 | over every interleaving, exactly the first `limit` requests of an identifier in an hour are admitted if and only if no late increment found its bucket reopened |
| RateLimit.FirstRequestsAdmitted | apps/api/app/middleware/rate_limit.py:113-149 | in particular when every increment is in its own hour, whenever and whether expiry is set |
| RateLimit.ExpiryKeepsTheHour | apps/api/app/middleware/rate_limit.py:123-128 | in every run the current hour's counter is the number of its requests: no expiry reopens it |
| RateLimit.CountsUntilLapse | apps/api/app/middleware/rate_limit.py:122-128 | in every run a counter is the number of its increments if and only if it has never expired |
| RateLimit.LateIncrementExactly | apps/api/app/middleware/rate_limit.py:116-135 | a late increment leaves the verdicts right if and only if its counter never expired, is full again, or its bucket was not full; with no counter there, if and only if the limit is 0 or not reached |
| RateLimit.AtMostTwice | apps/api/app/middleware/rate_limit.py:46-48 | with increments in their own hour, any span of 3600 s, both ends included, admits at most twice the limit |
| RateLimit.LateRun | apps/api/app/middleware/rate_limit.py:116-128 | a run from the start in which a limit of 1 admits two requests of one hour, the second increment a millisecond late |
| RateLimit.KeyInjective | apps/api/app/middleware/rate_limit.py:51-52 | the Redis key determines identifier and bucket, even if the identifier holds ':' |
| RateLimit.Limiter.Increment | apps/api/app/middleware/rate_limit.py:122-135 | INCR keeps the invariant; it admits a request of a full bucket if and only if the bucket was reopened, and in its own hour admits exactly below the limit |
| RateLimit.Limiter.SetExpiry | apps/api/app/middleware/rate_limit.py:125-127 | EXPIRE keeps the invariant and does nothing to a counter that is gone |
| RefreshTokens.NextKeeps | apps/api/app/services/auth.py:66-122 | every interleaved step keeps conservation, unique storing, matching subjects, expiry times and the account of minted tokens, in all and for each user |
| RefreshTokens.EachTokenOnce | apps/api/app/services/auth.py:66-94 | a stored token is live, exchanged, logged out or expired, exactly one of these and exactly once |
| RefreshTokens.MismatchNeverFires | apps/api/app/services/auth.py:84-87 | a live token's stored user is its subject, so a refresh is refused exactly when its token is not live |
| RefreshTokens.LoggedOutForGood | apps/api/app/services/auth.py:93-94 | after a logout no request, under way or later, exchanges the token |
| RefreshTokens.SessionsBoundedByLogins | apps/api/app/services/auth.py:66-122 | live tokens equal stored minus exchanged, logged out and expired, and never outnumber the logins |
| RefreshTokens.SessionsBoundedPerUser | apps/api/app/services/auth.py:66-122 | each user's live tokens never outnumber its own logins, and without a login it has no token |
| RefreshTokens.RefreshSucceedsExactly | apps/api/app/services/auth.py:66-94 | a refresh succeeds if and only if the token was stored, has not expired, names a user and was neither exchanged nor logged out |
| RefreshTokens.RefreshKeepsUser | apps/api/app/services/auth.py:84-88 | whatever happens then, a request that has consumed a token mints only for that token's subject |
| RefreshTokens.TokenService.ConsumeRefreshToken | apps/api/app/core/redis.py:51-55 | GETDEL keeps the invariant and gives the token's own subject exactly when the token was live |
| RefreshTokens.TokenService.StoreRefreshToken | apps/api/app/core/redis.py:34-38 | SET with expiry keeps the invariant, at any distance from the minting |
| RefreshTokens.TokenService.CreateRefreshToken | apps/api/app/core/security.py:49-75 | a minted token carries its user, a new jti and an expiry 30 days away |
| RefreshTokens.TokenService.RotateRefreshToken | apps/api/app/services/auth.py:66-122 | the second half of a refresh mints the successor for the user of the request and keeps the invariant |
| RefreshTokens.TokenService.LogoutUser | apps/api/app/core/redis.py:57-61 | DEL keeps the invariant and removes a live token for good |
| Membership.NextKeeps | apps/api/app/services/projects.py:151-299 | every request keeps: each project has an admin, its owner is a member, nobody is in it twice |
| Membership.EveryProjectHasAnAdmin | apps/api/app/services/projects.py:44-299 | over every history of requests from the empty store, with stale invitation checks allowed; deleted projects keep no member |
| Membership.DemotionRefusedExactly | apps/api/app/services/projects.py:204-242 | a demotion is refused if and only if carrying it out would leave no admin |
| Membership.RemovalRefusedExactly | apps/api/app/services/projects.py:245-299 | a removal is refused if and only if it would lose the last admin or the owner's membership |
| Membership.RefusedExactly | apps/api/app/services/projects.py:151-299 | each request is refused exactly for these reasons, told by the roles, and then changes nothing |
| Membership.AcceptedDoes | apps/api/app/services/projects.py:44-377 | an accepted request changes the role of the pair, or of the project, that it names, as asked, and no other role, owner or user |
| Membership.ProjectStore.Create | apps/api/app/services/projects.py:44-73 | the owner becomes an admin of the new project |
| Membership.ProjectStore.InviteProjectMember | apps/api/app/services/projects.py:151-201 | unknown address, existing member and lost race are told apart as the code does; accepted, the user has the requested role and nobody else's changes |
| Membership.ProjectStore.UpdateProjectMemberRole | apps/api/app/services/projects.py:204-242 | the role change, exactly for the pair, or its refusal, and the invariant |
| Membership.ProjectStore.RemoveProjectMember | apps/api/app/services/projects.py:245-279 | the removal, exactly of the pair, or its refusal, and the invariant |
| Membership.ProjectStore.Delete | apps/api/app/services/projects.py:361-377 | the project goes with all its members |
| StorageKey.AcceptsExactly | apps/api/app/services/storage.py:65-95 | the chain of checks accepts exactly names of allowed characters with a stem, a dot, a known extension and no "..", unchanged |
| StorageKey.KeyRoundTrip | apps/api/app/routers/models.py:71-86 | the key of an accepted name passes the upload checks, splits into its three parts and parses back to the same model |
| StorageKey.KeyInjective | apps/api/app/services/storage.py:161-162 | different users, models or names have different keys |
| StorageKey.AcceptedIsRouted | apps/worker/app/tasks/mesh.py:22-70 | every accepted name has a format and the format reaches the task named after its extension; the unsupported branches are dead |
| StorageKey.RouteOf | apps/worker/app/tasks/scan.py:209-231 | each allowed extension's format is dispatched to its own registered task: ".glb" and ".gltf" to glTF, ".stp" and ".step" to STEP |
| BcfExport.GroupComments | apps/api/app/services/bcf_export.py:31-46 | the loop gives each annotation its comments in query order and never misses a key |
| BcfExport.ExportBcf | apps/api/app/services/bcf_export.py:31-56 | the archive holds one topic per annotation with exactly its group |
| BcfExport.BatchedIsPerAnnotation | apps/worker/app/tasks/bcf.py:116-125 | with distinct times among one annotation's comments its group is its own query's result, for every order the database may give |
| BcfExport.TieDisagrees | apps/worker/app/tasks/bcf.py:116-125 | with two of its comments at one time, a batch and a list the database may give whose orders differ, for any table |
| BcfExport.AgreeExactly | apps/worker/app/tasks/bcf.py:116-125 | all allowed answers to the two queries agree on an annotation if and only if no two of its comments have one time |
| BcfExport.NothingLostOrDoubled | apps/api/app/services/bcf_export.py:31-56 | the topics hold every comment of the model's annotations exactly once and nothing else |
| BcfExport.TopicHolds | apps/api/app/services/bcf_export.py:31-56 | the file of a topic is named after its annotation's GUID and holds exactly that annotation's comments, oldest first |
| BcfExport.EntriesApart | apps/api/app/services/bcf_export.py:48-56 | with unique GUIDs no topic overwrites another in the archive |

## Left out

- WsServer.WsServer.OnMessage: treats a model id that is not text as absent, and does not model the end of the process after the throw.
- WsServer.WsServer.InitDone: does not say when the websocket plugin closes the socket of a handler that threw; in the model it may close at any later time.
- Converter.RunSettles: does not model a database write of the failure path that took effect before it raised, nor errors while the temporary directory is removed, which come after the release and change only the task's result.
- HTTP routing, schemas, ORM, migrations, cookies, CSRF, logging and metrics, with them the connected-clients gauge, which cleanup run twice decrements twice.
- The forwarding of `model_events` messages from the per-connection Redis subscriber, and the order between direct replies (PING, PONG, errors) and room messages.
- Redis delivery faults: the fan-out assumes a fixed set of replicas and each publication that Redis accepts delivered once to each, in order per publisher; publications that fail are modelled as lost everywhere but locally.
- Timers are assumed to fire on time, an 'error' event to find the socket no longer open, and the cursor throttle to be a number.
- The connections of a replica are values in a map of the class, so aliasing between closures of one connection is not modelled.
- The `obj`, `step` and `stl` tasks, which repeat the glTF skeleton, and the contents of elements, spatial trees, geometry statistics and bounding boxes.
- Errors before the task lock is taken (engine setup, the first status read), which leave the state as it was; a lost publication of MODEL_READY or MODEL_FAILED; partial effects of a stage that raises.
- A soft time limit inside the except clauses or inside a helper that swallows it, and Celery's own retry counting.
- The order in which xeokit writes its files: the listing is sorted by name, as `sorted(glob)` gives it, and a file called just ".xkt" does not occur.
- The antivirus task around the clamd exchange: quarantine, retries, and the retries-exhausted branch.
- The liberal digit syntax of Python's `int` in a UUID; `datetime` printing and UTF-8 decoding are parameters with the laws stated in `Cursor.Platform.Lawful`.
- Access tokens, password checks, Google sign-in and `delete_all_user_refresh_tokens`, which nothing calls.
- Rate-limit exemptions, plan lookup and its cache, response headers, and a failed EXPIRE call turning into a server error after the count.
- The upload quota, size and MIME checks, presigned URLs and upload confirmation.
- Project names and descriptions, membership listings, deletion of user accounts, and role checks of the routers.
- BCF XML text and the worker's annotation query, whose columns a later migration renames.
