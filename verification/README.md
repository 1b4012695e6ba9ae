# Web-ssh-tool: a verified model of its server, client and browser logic

The system has three parts. A *master* serves browsers over HTTPS. A user signs in with the
password of a local account; the master checks it over SSH and then starts, under that
account, a *client* process, which connects back over a websocket. From then on the browser
sends requests through the master to the client, and HTTP uploads, downloads and previews are
tunnelled between the two by the master.

This project models the parts of it that many tasks share, and proves what holds of them
under every interleaving:

- `AuthQueue`: the per-user queue in front of the password check, with its map of weak
  handles and its workers. `Rendezvous`: publishing a token, waiting for the spawned client,
  and the two locks around that.
- `WebsocketPeer`: the two tables of pending calls of a signed-in peer. `Multiplexer`: a
  browser request on its way to the client and back. `HttpTunnel`: the pairing of a browser's
  HTTP request with the client's PUT.
- `FileTree`: write, copy and rename over one file tree. `UploadTask`: the browser's upload
  function with its placeholder guard and its cancellation. `UploadContent`: what an upload
  leaves in the target.
- `Relay`: the byte relays over bounded channels. `Shell`: shells and their event stream.
- `Query`: the query string between browser and server. `Compress`: the compression worker
  and its local fallback.

Concurrent parts are step relations: `Enabled` and `Apply` (or `Possible` and `Step`) say
when a step can happen and what it does, a *run* is any sequence of enabled steps (a *trace*
is a run with its steps), and each main result holds in every state of every run. A step
covers the code between two points at which other code can run. Objects that the code
updates in place are classes, whose methods are proved to do exactly what the step relation
or a specification function says.

## What is trusted

- `mpsc::channel(n)` with one sender holds at most n + 1 items; `send` also flushes, so on
  `channel(0)` it completes only when the receiver has taken the item.
- Dropping the sender of a oneshot channel resolves its receiver with an error. `Weak::upgrade`
  succeeds exactly while a strong handle exists. A closed websocket sink rejects sends.
- Websockets deliver in order, without loss or repetition, while they are open; a send to one
  completes or fails, and so does closing it. A REST call of the browser is answered with a
  value or an error, or never, and has done what it does before it is answered.
- Aborting an `XMLHttpRequest` rejects it at once and stops nothing on the other side; its
  `load` event comes for any status. An abort signal fires once, at the first abort.
- `create_new` creates only a path that is absent, `rename` is POSIX rename. The operating system
  refuses paths with too many components, and reading a directory lists what is in it when the
  reading begins.
- The gzip codec is a parameter whose decoder inverts its encoder; JSON texts are strings.
- Percent-encoding follows section 19.2.6.4 of ECMA-262, parsing section 5.1 of the WHATWG
  URL Standard.

## Where the code does less than one might expect

Each of these is proved, with the exact condition or a concrete run:

- Overlapping sign-ins can deadlock for good (`Rendezvous.DeadlockIsReachable`,
  `Rendezvous.DeadlockIsTheCycle`, `Rendezvous.NoOverlapNoDeadlock`); already the second one's
  waiting for the first makes it certain that the first can only time out
  (`Rendezvous.DoomedForever`, `Rendezvous.DoomExpires`).
- A single sign-in can jam the peer map for good, when its answer cannot be sent to the browser
  while an event for it is being forwarded (`Rendezvous.JamIsReachable`, `Rendezvous.JamForever`).
- A cancelled upload can leave its file: `UploadTask.CancelInTime` says in which states a cancel
  comes too late for that, `UploadTask.CancelledIsDone` when the browser then takes the upload
  for done (`UploadTask.CancelledMayDeliver`, `UploadTask.AbortedMayDeliver`).
- A placeholder or a temporary file can stay behind, and an upload can complete without its
  data (`UploadTask.PlaceholderStays`, `UploadTask.TempFileStays`, `UploadTask.CompletedContent`,
  `UploadTask.RefusedMayComplete`).
- A compressed upload of a file shorter than the placeholder's text leaves the tail of that
  text (`UploadContent.ExactIffLongEnough`).
- A rename of a directory always fails and can leave an empty file
  (`FileTree.DirectoryRenameFails`, `FileTree.DirectoriesStay`); a rename of a missing file onto
  itself succeeds and creates an empty file (`FileTree.RenameMoves`).
- A copy of a directory to a place in itself always fails, and can leave much at that place
  (`FileTree.Disk.CopyDirAll`).
- Request ids repeat after 2^64 sends (`WebsocketPeer.IdsDistinctUntilWrap`).

## Model

| member | source | states |
|---|---|---|
| `AuthQueue.MutualExclusion` | rust/src/websocket_server/on_request_authenticate.rs:72-118 | in every state of every run, two attempts of one user name that are both between their completed queue send and the end of their password check (penalty sleep included) are the same attempt |
| `AuthQueue.FailureSpacing` | rust/src/websocket_server/on_request_authenticate.rs:106-111 | in every run, two answers Ok(false) for one user name lie at least 5000 ms apart |
| `AuthQueue.FailureRate` | rust/src/websocket_server/on_request_authenticate.rs:74-111 | any window of T ms of any run has at most T/5000 + 1 answers Ok(false) for one user name, across the death and re-creation of the name's queue |
| `AuthQueue.WakesInTime` | rust/src/websocket_server/on_request_authenticate.rs:107-110 | a rejected attempt sleeps 5000 ms from its rejection, and can go on from then on |
| `AuthQueue.OnlyRejectedSleep` | rust/src/websocket_server/on_request_authenticate.rs:106-116 | only an attempt that was answered Ok(false) sleeps |
| `AuthQueue.ChecksTakeTurns` | rust/src/websocket_server/on_request_authenticate.rs:104-118 | between the completed sends of two attempts of one user name in a run, the check of the first has been accepted, has failed, or has slept its penalty |
| `AuthQueue.AttemptsAdvance` | rust/src/websocket_server/on_request_authenticate.rs:72-118 | every step of an attempt takes it forward and no other step touches it |
| `AuthQueue.WorkersAdvance` | rust/src/websocket_server/on_request_authenticate.rs:89-99 | every step of a worker leaves it with less to do and no other queue touched |
| `AuthQueue.RestPhases` | rust/src/websocket_server/on_request_authenticate.rs:72-118 | when the server has nothing left to do, every attempt is over, in its check, or on its way to it with its queue obtained, and the map's lock is free |
| `AuthQueue.Hygiene` | rust/src/websocket_server/on_request_authenticate.rs:74-104 | every map entry, dead or alive, belongs to a queue of that name whose worker has not finished; a sweep removes the entry of its own name exactly if that is dead, and leaves all others, a live successor's included |
| `AuthQueue.DeadEntryMoves` | rust/src/websocket_server/on_request_authenticate.rs:90-98 | while an entry is dead, some step that brings its worker nearer to its sweep is possible, or the map's lock can be released |
| `AuthQueue.DeadEntryGoes` | rust/src/websocket_server/on_request_authenticate.rs:89-100 | no step brings a dead entry back to life or its worker farther from the sweep; a step that helps brings it nearer, and its sweep removes the entry, unless the entry was replaced or removed before |
| `AuthQueue.SendNeverFails` | rust/src/websocket_server/on_request_authenticate.rs:105 | in every state of every run, the send whose result is ignored does not fail: the receiver of a queue is not dropped while an attempt has a handle of it |
| `AuthQueue.RestIsEmpty` | rust/src/websocket_server/on_request_authenticate.rs:89-103 | nothing leaks: when all attempts are over and no worker can step, every worker has finished and the map is empty |
| `AuthQueue.WaitsForOwnUser` | rust/src/websocket_server/on_request_authenticate.rs:104-118 | users do not block each other: once the server has nothing left to do, an attempt still on its way to its check waits for the running check of another attempt of the same name |
| `AuthQueue.StepKeepsInv` | rust/src/websocket_server/on_request_authenticate.rs:72-118 | each of the sixteen kinds of steps keeps the invariant: a handle belongs to the queue that the map has for the attempt's name, the queue's mutex, channel and worker agree with the attempts' phases, young failures are still asleep, failures are spaced |
| `AuthQueue.LiveIffCounted` | rust/src/websocket_server/on_request_authenticate.rs:76-79 | a weak handle can be upgraded exactly while the number of strong handles, of attempts and of sweeping workers, is positive |
| `AuthQueue.LookupCounts` | rust/src/websocket_server/on_request_authenticate.rs:75-104 | a lookup raises the strong count of exactly one queue by one: that of the entry if it has handles already, else that of a new queue |
| `AuthQueue.SweepCounts` | rust/src/websocket_server/on_request_authenticate.rs:93-98 | a sweep that finds the entry alive raises only that queue's strong count, by one, until the lock is released |
| `AuthQueue.DropCounts` | rust/src/websocket_server/on_request_authenticate.rs:104-118 | an attempt that leaves lowers the strong count of its own queue by one and no other |
| `AuthQueue.QueueTable.Obtain` | rust/src/websocket_server/on_request_authenticate.rs:75-104 | the critical section of a sign-in changes the map as the step relation says, and returns the queue that the attempt then holds |
| `AuthQueue.QueueTable.Sweep` | rust/src/websocket_server/on_request_authenticate.rs:93-98 | the critical section of a finished worker changes the map as the step relation says |
| `Rendezvous.TokenOwnership` | rust/src/websocket_server/on_request_authenticate.rs:128-163 | for any token generator: no two sign-ins waiting or signed in share a token, no token is in both maps, and each peer's connection was claimed with the peer's token by exactly one client |
| `Rendezvous.PeersNeverOverwritten` | rust/src/websocket_server/on_request_authenticate.rs:130-163 | no step of any run replaces an entry of the peer map by another one: an entry stays as it is until its own sign-in removes it |
| `Rendezvous.NeverCanceled` | rust/src/websocket_server/on_request_authenticate.rs:152-160 | in every state of every run, the wait for the client can end by the client's connection or by the timeout, never by a dropped sender, so the exit that would leave the token published is never taken |
| `Rendezvous.StepKeepsInv` | rust/src/websocket_server/on_request_authenticate.rs:128-200 | each step of sign-ins, clients and HTTP requests keeps the invariant on tokens, connections and lock owners |
| `Rendezvous.DeadlockIsTheCycle` | rust/src/websocket_server/on_request_authenticate.rs:130-199 | a reachable state is stuck for good, with somebody waiting for a lock whose owner cannot step, if and only if one sign-in holds the peer map and wants the suspended clients while another holds the suspended clients inside its join, or the teardown of a session whose answer could not be sent holds the peer map and wants its connection, whose lock an event forwarder holds |
| `Rendezvous.NoOverlapNoDeadlock` | rust/src/websocket_server/on_request_authenticate.rs:130-199 | where at most one sign-in is between the join and the release of the peer map, that jam is the only deadlock, and there is none where the answer of each session in teardown was sent |
| `Rendezvous.JamForever` | rust/src/websocket_server/on_request_authenticate.rs:191-199 | such a jam holds in every continuation of the run: the peer map stays locked |
| `Rendezvous.JamIsReachable` | rust/src/http_server/upload.rs:21-25 | a concrete run of a single sign-in into the jam: a request with its token forwards its event before the answer to the browser fails |
| `Rendezvous.ConnKeeps` | rust/src/http_server/mod.rs:43-50 | each step keeps the ownership of the connections' locks: by a request that forwards to an open session, found through the peer map or the client's own loop |
| `Rendezvous.DeadlockIsReachable` | rust/src/websocket_server/on_request_authenticate.rs:130-163 | a concrete run of two overlapping sign-ins that ends in the cycle, which is a deadlock |
| `Rendezvous.DoomedForever` | rust/src/websocket_server/on_request_authenticate.rs:130-157 | once a second sign-in has taken the suspended clients while the first waits for its client, no continuation of the run ever undoes it: both locks stay held by the two |
| `Rendezvous.DoomedIsReachable` | rust/src/websocket_server/on_request_authenticate.rs:130-142 | a concrete run into such a state, which is not yet a deadlock |
| `Rendezvous.DoomExpires` | rust/src/websocket_server/on_request_authenticate.rs:152-157 | in such a state of a run the first sign-in's timeout can fire at its deadline, and firing it deadlocks |
| `Rendezvous.PublishDecides` | rust/src/websocket_server/on_request_authenticate.rs:130-142 | exactly a token in use is refused, and both locks released; any other is published, and its sign-in waits for 5000 ms, still with the peer map |
| `Rendezvous.RejectedWhy` | rust/src/websocket_server/on_request_authenticate.rs:131-160 | in every run, a sign-in is rejected only because its token was in use when it would have been published, or because its client did not come in time |
| `Rendezvous.TimeoutNotEarly` | rust/src/websocket_server/on_request_authenticate.rs:152 | in every run, a sign-in gives its client up no sooner than 5000 ms after it has published its token |
| `Rendezvous.SignInsAdvance` | rust/src/websocket_server/on_request_authenticate.rs:130-200 | every step of a sign-in takes it forward; of all other steps only the delivery of its client's connection touches it |
| `Rendezvous.TwoSessionsReachable` | rust/src/websocket_server/on_request_authenticate.rs:130-170 | a concrete run in which a second user signs in beside a first one |
| `Rendezvous.LookupDecides` | rust/src/http_server/mod.rs:43-50 | a request finds the session of its token if and only if there is one |
| `Rendezvous.ClientMaps.Publish` | rust/src/websocket_server/on_request_authenticate.rs:131-142 | a token is published if and only if neither map has it; then it alone is added, else nothing changes |
| `Rendezvous.ClientMaps.Claim` | rust/src/websocket_server/on_client.rs:14-27 | a client gets the entry of its token out of the suspended clients if there is one, and is refused if not; nothing else changes |
| `Rendezvous.ClientMaps.Withdraw` | rust/src/websocket_server/on_request_authenticate.rs:154-158 | a timed-out sign-in takes its token out again |
| `Rendezvous.ClientMaps.Store` | rust/src/websocket_server/on_request_authenticate.rs:162-163 | the insert of a peer never meets an existing entry |
| `Rendezvous.ClientMaps.Remove` | rust/src/websocket_server/on_request_authenticate.rs:196-199 | the end of a session finds its own peer in the map, and removes exactly that |
| `WebsocketPeer.ClientWebsocket.SendRequest` | rust/src/common/websocket_peer.rs:106-123 | id, callback entry and frame of a send, with the entry taken back and an error if the sink refuses |
| `WebsocketPeer.ClientWebsocket.FeedResponse` | rust/src/common/websocket_peer.rs:125-140 | the waiter of the id gets the response; an unknown or malformed id changes nothing and is reported as what it is |
| `WebsocketPeer.ClientWebsocket.ForwardEvent` | rust/src/common/websocket_peer.rs:142-147 | an event is appended to the event stream exactly while the connection is open and the receiver of the stream is there; else it is refused |
| `WebsocketPeer.ClientWebsocket.Disconnect` | rust/src/common/websocket_peer.rs:98-104 | the connection is closed and every waiter is resolved with an error |
| `WebsocketPeer.ClientHttp.Register` | rust/src/common/websocket_peer.rs:52-57 | the registration gets the counter's old value as id and is in the queue under it |
| `WebsocketPeer.ClientHttp.CancelRegister` | rust/src/common/websocket_peer.rs:59-61 | exactly the given id leaves the queue, its waiter resolved with an error |
| `WebsocketPeer.ClientHttp.Feed` | rust/src/common/websocket_peer.rs:63-68 | exactly the waiter of the given id gets the PUT and leaves the queue |
| `WebsocketPeer.ClientHttp.Disconnect` | rust/src/common/websocket_peer.rs:70-72 | the queue is emptied and every waiter resolved with an error |
| `WebsocketPeer.WebSocketPeer.Disconnect` | rust/src/common/websocket_peer.rs:24-35 | both tables are closed |
| `WebsocketPeer.Conservation` | rust/src/common/websocket_peer.rs:98-140 | for every sequence of calls the callback map holds exactly the sends that went out and have been neither answered nor disconnected nor, by the wrapped counter, given away their id, each under its own id with its own waiter |
| `WebsocketPeer.Waiters` | rust/src/common/websocket_peer.rs:98-140 | for every sequence of calls a waiter is unresolved exactly while its send is so pending; if it got a value, that is the one of the first response after its send with its own id |
| `WebsocketPeer.Fates` | rust/src/common/websocket_peer.rs:98-140 | what each waiter gets: the response, if the first call that ends its send is a response with its id, and an error if that is a disconnect or a reuse of the id, or if the send failed |
| `WebsocketPeer.GoesOut` | rust/src/common/websocket_peer.rs:106-147 | the client is sent exactly the requests whose sends went out, each under its own id, and the event stream has exactly the events that were heard; both in order |
| `WebsocketPeer.NobodyWaitsAfterDisconnect` | rust/src/common/websocket_peer.rs:98-123 | in every sequence of calls with a disconnect the table is empty at the end, later sends included, and every waiter is resolved |
| `WebsocketPeer.IdsDistinctUntilWrap` | rust/src/common/websocket_peer.rs:112-114 | the ids of a connection are pairwise distinct if and only if it has sent at most 2^64 requests |
| `Multiplexer.EndToEnd` | rust/src/websocket_server/on_authenticate.rs:30-72 | whatever the order in which handlers, client jobs and replies finish: a reply delivered for a tag is the one owed to the only message sent with that tag (for a forwarded request whose frame went out the result of the client's job for that very frame, or, only after the client was disconnected, an internal error), and no tag is delivered twice |
| `Multiplexer.DeliveredWasComputed` | rust/src/websocket_client/mod.rs:34-67 | in every run, a value that the browser gets for a request to the client was computed before by the client for the frame of that very request |
| `Multiplexer.DeliveredHadReason` | rust/src/websocket_server/on_authenticate.rs:97-142 | in every run, a reply that the browser gets was decided at a step of the handler of its own message: a local answer by the request, an error because the send was refused, or what the waiter got |
| `Multiplexer.AllDelivered` | rust/src/websocket_server/on_authenticate.rs:30-72 | nothing is lost: once the system has nothing left to do and the client has computed all its results, every message that was sent has had its reply delivered |
| `Multiplexer.StepsAreDone` | rust/src/websocket_server/on_authenticate.rs:30-72 | no step of the system, once taken, is possible again |
| `Multiplexer.AtMostSixteen` | rust/src/websocket_server/on_authenticate.rs:30 | at most sixteen messages of a browser are handled at a time |
| `Multiplexer.ForwardedAtMostOnce` | rust/src/websocket_server/on_authenticate.rs:119-137 | one frame at most reaches the client for one browser message |
| `Multiplexer.BrowserTable` | web/src/pages/SignInPage.tsx:233-282 | the browser's table holds exactly the tags posted and not yet delivered |
| `Multiplexer.StepKeepsInv` | rust/src/websocket_client/mod.rs:34-67 | each of the fourteen kinds of steps of browser, master and client keeps the ledger of frames, callbacks, jobs, replies and tags |
| `Multiplexer.RouteForwards` | rust/src/websocket_server/on_authenticate.rs:104-141 | what is forwarded is a member of the request object and has none of the master's own keys |
| `Multiplexer.NoInternalFromBrowser` | rust/src/websocket_server/on_authenticate.rs:105-124 | no frame sent for a browser message is an internal call |
| `Multiplexer.BuildRoute` | rust/src/websocket_server/on_authenticate.rs:104-141 | the first member whose key is not internal decides: shell, token, or forwarded as it is; a request without one is unknown |
| `Multiplexer.Auth.TakeTag` | web/src/pages/SignInPage.tsx:274-276 | the tag counter of the browser, as in the step relation |
| `Multiplexer.Auth.Register` | web/src/pages/SignInPage.tsx:277-281 | the callback of a tag is registered when the message is sent |
| `Multiplexer.Auth.OnMessage` | web/src/pages/SignInPage.tsx:233-240 | the listener calls the callback of the reply's tag, which has not been called before, and takes it out of the table; a reply without a callback changes nothing |
| `HttpTunnel.Pairing` | rust/src/http_server/components.rs:40-100 | a joined browser request got a PUT that carried its own registration id, and no two requests got the same PUT |
| `HttpTunnel.NoLeak` | rust/src/http_server/components.rs:47-98 | a call that has returned, by whichever exit, has no entry in the queue |
| `HttpTunnel.ExitReason` | rust/src/http_server/components.rs:53-98 | in every run, each exit has its reason: the websocket request could not be sent, the client's reply was not null, or the waiter for the PUT got it or an error |
| `HttpTunnel.ApprovedByNull` | rust/src/http_server/components.rs:68-80 | a call waits for its PUT only after the client has said null |
| `HttpTunnel.PutReaches` | rust/src/http_server/components.rs:80-99 | a PUT reaches the call that is queued under its id, and takes it out of the queue |
| `HttpTunnel.StuckCalls` | rust/src/http_server/components.rs:40-100 | a call that cannot go on has returned, or waits for the client's reply or for its PUT |
| `HttpTunnel.ConsumedOnce` | rust/src/http_server/client.rs:22-35 | what a registration is resolved with never changes afterwards: each is consumed at most once |
| `FileTree.Disk.CopyDirAll` | rust/src/websocket_client/fs_api.rs:193-205 | the recursive copy ends; on success the destination is the source subtree with everything but directories and regular files pruned, on failure it is part of that; nothing outside the destination changes; on a disk without errors it succeeds exactly if the destination can be created; a copy of a directory to a place in itself always fails, and changes nothing outside the destination |
| `FileTree.Disk.CopyEntry` | rust/src/websocket_client/fs_api.rs:195-202 | one turn of the loop copies one entry completely, whatever it is, or leaves part of it, and never succeeds for the entry that leads to the destination |
| `FileTree.Disk.CopyFile` | rust/src/websocket_client/fs_api.rs:181-191 | only an absent destination is created, with the source's bytes on success and a front part of them on failure |
| `FileTree.Disk.FsCp` | rust/src/websocket_client/fs_api.rs:139-179 | on success a regular file's bytes, or a directory's tree, are at a path that was free; a source that is a chain of at most 40 links is what the chain ends at; one that is absent, or whose chain is longer, broken or cyclic, is an error that changes nothing |
| `FileTree.ResolveExact` | rust/src/websocket_client/fs_api.rs:154 | following links finds the end of the chain if there is one of at most 40 links, and nothing else |
| `FileTree.Disk.FsRename` | rust/src/websocket_client/fs_api.rs:87-118 | the effect of a rename call on the whole tree: placeholder first, then the rename over it |
| `FileTree.Disk.RenameOnto` | rust/src/websocket_client/fs_api.rs:109 | renaming over a regular file succeeds exactly for a source that exists and is no directory |
| `FileTree.Disk.FsWriteFile` | rust/src/websocket_client/fs_api.rs:207-232 | only an absent path is created, with the full content on success and a front part of it on failure |
| `FileTree.CallKeeps` | rust/src/websocket_client/fs_api.rs:87-232 | no single call, failed or not, changes or loses a node; only a successful rename moves one |
| `FileTree.NoClobber` | rust/src/websocket_client/fs_api.rs:87-232 | over every history of such calls, copies into themselves included, each node of the first tree is unchanged at the path to which the successful renames have taken it one after another, no two at one path; a node that no successful rename had as its source is where it was |
| `FileTree.DirectoriesStay` | rust/src/websocket_client/fs_api.rs:97-110 | over every history a directory stays at its own path, whatever is renamed |
| `FileTree.RenameMoves` | rust/src/websocket_client/fs_api.rs:97-110 | a successful rename moves the source's node intact to a path that was free and leaves all others; onto itself it leaves an empty new file |
| `FileTree.DirectoryRenameFails` | rust/src/websocket_client/fs_api.rs:102-109 | the rename of a directory always fails, and leaves at most the empty placeholder |
| `FileTree.EntryProgress` | rust/src/websocket_client/fs_api.rs:198-202 | a completely copied entry, directory or not, extends the copy of its parent by exactly that entry |
| `FileTree.UnderwayNext` | rust/src/websocket_client/fs_api.rs:195-203 | a copied entry leaves all others as they were, and in a copy into itself the entry that leads to the destination still to be copied |
| `FileTree.BrokenIsPart` | rust/src/websocket_client/fs_api.rs:199-201 | a copy that breaks off below an entry leaves only part of the source in the destination |
| `UploadTask.GuardDiscipline` | web/src/pages/home-page/MultiFileExplorer.tsx:49-154 | over every order of answers, effects on the disk, cancel and close: the target is unlinked at most once, and only by a task that had the guard on and whose own creation has made the whole placeholder; when the function is over the guard is off, and a task that had it has unlinked the target or switched the guard off as done |
| `UploadTask.PlaceholderStays` | web/src/pages/home-page/MultiFileExplorer.tsx:55-94 | when the function is over and its unlink, if any, is carried out: the placeholder is still there if and only if its creation was carried out, even in part, but not answered with success, or the transfer was refused with a JSON text and taken for done |
| `UploadTask.TempFileStays` | web/src/pages/home-page/MultiFileExplorer.tsx:124-145 | a temporary file is unlinked exactly once if the transfer was answered with its name, else never; once that is carried out it stays if and only if it was opened and the transfer was not so answered |
| `UploadTask.CompletedNeverUnlinks` | web/src/pages/home-page/file-explorer/Common.tsx:233-302 | a task that reaches completion has not unlinked its target and never will, whatever the user does later |
| `UploadTask.EndsAsAnswered` | web/src/pages/home-page/file-explorer/Common.tsx:251-263 | an upload that nobody cancels ends as completed if and only if every answer it got was a success, and else with an error |
| `UploadTask.FailedZipSendsNothing` | web/src/pages/home-page/MultiFileExplorer.tsx:100-122 | after a failed compression nothing is ever sent to the target, and the upload is never completed |
| `UploadTask.CloseCancels` | web/src/pages/home-page/file-explorer/Common.tsx:296-302 | a close cancels every upload that is not completed, whenever it comes, and changes nothing else of a completed one |
| `UploadTask.TasksAdvance` | web/src/pages/home-page/MultiFileExplorer.tsx:79-152 | every answer takes the upload forward and no cancel takes it back |
| `UploadTask.CompletedContent` | web/src/pages/SignInPage.tsx:303-309 | what a completed task has left at its target: a compressed upload all its data; a plain one all of it if and only if the other side took the whole request, a part if and only if a write there failed, and the placeholder if and only if the request was refused with a JSON text |
| `UploadTask.ErrorsCleanUp` | web/src/pages/home-page/MultiFileExplorer.tsx:79-151 | a task that ends in an error has not switched the guard off as done, and has unlinked its target exactly once if it ever had the guard, else never |
| `UploadTask.CancelInTime` | web/src/pages/SignInPage.tsx:284-313 | for every state of every run with the guard on and no cancel so far: a file can stay behind a cancel now, with its unlink carried out, if and only if the request that opens the target is out and not yet carried out, or is still to go out because the token call of a plain upload is not answered; in every other state no continuation of the run leaves a file |
| `UploadTask.EarlyCancel` | web/src/pages/home-page/MultiFileExplorer.tsx:79-81 | a cancel before the creation of the target was answered with success is always in time |
| `UploadTask.TooLateWhere` | web/src/pages/home-page/MultiFileExplorer.tsx:82-143 | seen from the browser, a cancel can be too late only in the token call and the request of a plain upload, and in the unzip call of a compressed one |
| `UploadTask.CancelledIsDone` | web/src/pages/SignInPage.tsx:289-298 | a cancelled upload is finished all the same if and only if it was finished before the first cancel, or that fell into the token fetch of a plain upload or behind the answered transfer of a compressed one, and what was underway then succeeded |
| `UploadTask.CancelledMayDeliver` | web/src/pages/SignInPage.tsx:289-298 | a concrete run: a cancel in the token fetch comes before the abort listener is registered, the target is unlinked, and the whole file is delivered behind the unlink |
| `UploadTask.AbortedMayDeliver` | web/src/pages/SignInPage.tsx:297-313 | a concrete run: a cancel in the transfer gives it up, but its request opens the target behind the unlink and the whole file stays |
| `UploadTask.RefusedMayComplete` | rust/src/http_server/mod.rs:85-87 | a concrete run: a request refused with a quoted text completes the upload with its placeholder in place |
| `UploadTask.StepKeepsInv` | web/src/pages/home-page/MultiFileExplorer.tsx:49-154 | each answer, cancel, close or effect on the disk keeps the invariant on guard, path, status, requests, target and temporary file |
| `UploadTask.Step` | web/src/pages/home-page/MultiFileExplorer.tsx:63-73 | every step of the browser sends an unlink of the target only by switching its guard off, and then one; a cancel is for good |
| `UploadTask.UploadController.ReleaseFileGuard` | web/src/pages/home-page/MultiFileExplorer.tsx:63-68 | the unlink is sent exactly if the guard was on, and the guard is off |
| `UploadTask.UploadController.DoCancel` | web/src/pages/home-page/file-explorer/Common.tsx:233-237 | cancel sends the unlink if the guard is on, and gives the transfer up exactly if its request is out and this is the first cancel |
| `UploadTask.UploadController.DoClose` | web/src/pages/home-page/file-explorer/Common.tsx:296-302 | close cancels unless the upload is completed |
| `UploadTask.UploadController.OnPlaceholderReply` | web/src/pages/home-page/MultiFileExplorer.tsx:55-62 | the guard goes on exactly if the creation succeeded |
| `UploadTask.UploadController.OnResume` | web/src/pages/home-page/MultiFileExplorer.tsx:79-130 | after the creation: throw, give up, or start the transfer |
| `UploadTask.UploadController.OnTokenReply` | web/src/pages/SignInPage.tsx:289-291 | the transfer goes on to its request, or fails |
| `UploadTask.UploadController.OnTransferDone` | web/src/pages/home-page/MultiFileExplorer.tsx:82-143 | the continuations after a failed transfer, one answered with the file's path, and one answered with another JSON text |
| `UploadTask.UploadController.OnTempUnlinkReply` | web/src/pages/home-page/MultiFileExplorer.tsx:137-151 | after the temporary file is unlinked: finish, or release and throw |
| `UploadTask.UploadController.OnSettled` | web/src/pages/home-page/file-explorer/Common.tsx:251-263 | only a running task becomes completed or failed |
| `Relay.ForwardAsyncReadToSender` | rust/src/common/mod.rs:44-68 | for every pattern of short reads the frames sent concatenate to a front part of the file, to all of it if neither reading nor sending failed; frames are non-empty and at most 4096 bytes, an error frame comes last |
| `Relay.ForwardBodyToSender` | rust/src/http_server/components.rs:23-36 | the frames passed on are a front part of the body, and all of it while the receiver is there |
| `Relay.Refinement` | rust/src/http_server/components.rs:17-36 | read loop, HTTP body and relay side by side: delivered plus in flight is exactly what was read, in order, in-flight frames are at most 2 and 9, and at a clean end the whole file is delivered |
| `Relay.AllArrives` | rust/src/http_server/components.rs:17-36 | where no relay can move any more and nothing has failed, the whole file has arrived |
| `Relay.MovesAdvance` | rust/src/http_server/components.rs:23-36 | every move leaves less to be done, so the relays come to an end |
| `Relay.DropEndsRelay` | rust/src/http_server/components.rs:32-34 | when the browser has gone away the relay ends with the next frame it would forward |
| `Relay.StepKeepsInv` | rust/src/http_server/components.rs:85-93 | every step of the three relays, and a drop of the receiver, keeps that balance and those bounds |
| `UploadContent.ReceiveFrames` | rust/src/websocket_client/upload.rs:91-107 | the file ends as the payload of the frames up to the first error, or the write has failed |
| `UploadContent.InternalUnzip` | rust/src/websocket_client/unzip.rs:26-36 | on success the target is its old content overwritten from the start by the unpacked bytes, and not truncated |
| `UploadContent.PlainUpload` | web/src/pages/home-page/MultiFileExplorer.tsx:78-94 | the plain path leaves exactly the file's bytes, however they are cut into frames |
| `UploadContent.CompressedUpload` | web/src/pages/home-page/MultiFileExplorer.tsx:99-152 | the compressed path leaves the file's bytes followed by the rest of the placeholder, for every gzip codec whose decoder inverts its encoder |
| `UploadContent.ExactIffLongEnough` | web/src/pages/home-page/MultiFileExplorer.tsx:55-57 | the compressed path leaves the exact file if and only if that is at least as long as the placeholder's text; else the placeholder's tail stays behind it |
| `UploadContent.OverlayAppend` | rust/src/websocket_client/unzip.rs:28-34 | writing two chunks one after another over old content is writing them together |
| `Query.OnHttp` | rust/src/http_server/mod.rs:40-89 | a request without a token is left to others; one whose token nobody is signed in with is refused; else the handler is download, upload or preview by the first of the keys p, u, v that some pair behind the token has, and gets all values of that kind in order, the upload the last file name |
| `Query.DecodeRules` | rust/src/http_server/mod.rs:40-43 | the decoding of section 5.1 of the WHATWG URL Standard: a plus is a space, a stray percent sign is itself |
| `Query.DecodeEscape` | rust/src/http_server/mod.rs:40-43 | a percent sign with two hexadecimal digits of either case is a byte |
| `Query.ParseRules` | rust/src/http_server/mod.rs:40-43 | fields are separated by ampersands, and empty ones passed over |
| `Query.FieldRules` | rust/src/http_server/mod.rs:40-43 | the first equals sign of a field separates its key from its value, and a field without one is a key |
| `Query.UploadRoundTrip` | web/src/pages/SignInPage.tsx:310 | the upload URL is dispatched to the upload handler with exactly the directory list, in order, and the file name, and refused exactly if nobody is signed in with its token; an empty list is an unknown request |
| `Query.DownloadRoundTrip` | web/src/pages/SignInPage.tsx:317-328 | the download URL is dispatched to the download handler with exactly the listed files in order, and refused exactly if nobody is signed in with its token; an empty list is an unknown request |
| `Query.PreviewRoundTrip` | web/src/pages/SignInPage.tsx:332-336 | the preview URL is dispatched to the preview handler with exactly the path, and refused exactly if nobody is signed in with its token |
| `Query.DecodeValue` | web/src/pages/SignInPage.tsx:310-335 | percent-decoding what encodeURIComponent and the URL printer make of any byte string gives that string back |
| `Query.ParseQuery` | rust/src/http_server/mod.rs:42-71 | parsing any query that the browser prints gives the token and all values, in order, under their keys |
| `Compress.WorkerTable.Request` | web/src/workers/Compress.ts:34-41 | a tag and a pending promise, or nothing once the worker is gone |
| `Compress.WorkerTable.OnMessage` | web/src/workers/Compress.ts:10-18 | the promise of the message's tag is settled and leaves the table; an unknown tag changes nothing |
| `Compress.WorkerTable.OnClose` | web/src/workers/Compress.ts:20-26 | every pending promise is rejected |
| `Compress.WorkerRefinesLocal` | web/src/workers/Compress.ts:71-82 | whenever the function returns it returns what the local function gives for that object, and it throws only where that throws, whether the worker answered, failed, or closed before or after the request |
| `Compress.CloseSettlesAll` | web/src/workers/Compress.ts:19-26 | every tag given out is either pending or settled, and settled once the worker is closed |
| `Compress.ClosedFinishes` | web/src/workers/Compress.ts:71-82 | after the worker's close, a call that cannot go on has returned or thrown |
| `Compress.BeginsAtWorker` | web/src/workers/Compress.ts:71-81 | a call goes to the worker if that is there and takes the message, and else is local |
| `Compress.SettledOnce` | web/src/workers/Compress.ts:10-26 | a settled promise keeps its outcome for the rest of the run |
| `Shell.Shells.Open` | rust/src/websocket_server/shell.rs:15-31 | a shell is started and registered exactly if its name is free and the SSH session grants a channel with terminal and shell; an error of the session registers nothing |
| `Shell.Shells.Close` | rust/src/websocket_server/shell.rs:35-38 | the name is freed and the instance's input is closed, if there is one; no other shell changes |
| `Shell.StopDecides` | rust/src/websocket_server/shell.rs:35-38 | in the step relation too, a stop frees exactly its name and tells exactly its instance to leave |
| `Shell.RestForwards` | rust/src/websocket_server/shell.rs:133-163 | a worker with nothing left to do has forwarded all its output and waits for more, or has sent its close event, or has failed |
| `Shell.WorkersAdvance` | rust/src/websocket_server/shell.rs:133-163 | every step of a worker leaves it with less to do, and no step of another one touches it |
| `Shell.OutputInOrder` | rust/src/websocket_server/shell.rs:133-155 | in what the browser has been sent, the data events of one instance are a front part of its SSH output in order, and its close event occurs at most once and after all of them |
| `Shell.CloseAfterAll` | rust/src/websocket_server/shell.rs:133-163 | when the close event is sent, everything taken from the SSH channel has been sent before it, and for an instance the user has not stopped that is the whole output of a channel that has ended |
| `Shell.StepKeepsInv` | rust/src/websocket_server/on_authenticate.rs:84-95 | each step of any shell, of other events and of the event loop keeps the order |

## Left out

- FileTree.Disk.FsCp: on a disk that never fails and knows no longest path, a copy of a directory into itself would not end; such a copy is modelled on all other disks.
- FileTree.Disk.CopyDirAll: the same; and what exactly such a copy leaves at its destination is not said.
- Rendezvous.JamForever: a request is not cancelled in the model; if its HTTP connection is dropped while it forwards its event, the server may drop it and with it the lock, while an event from the client itself is not dropped.
- UploadTask.PlaceholderStays: assumes that nobody else writes to the target or the temporary file, and speaks of unlinks that were carried out; an unlink may also be refused by the disk, and then the file stays.
- UploadTask.TempFileStays: the same.
- HttpTunnel.NoLeak: speaks of calls that return; a call whose connection is dropped in the middle, or whose registration comes after the peer has been torn down, is not said to end.
- Multiplexer.EndToEnd: the tag counter is followed up to 2^53 and the id counter up to 2^64, where they stop being exact; it is a safety property and does not say that every request is answered.
- Query.UploadRoundTrip: file names are byte strings; lone surrogates, for which `encodeURIComponent` throws, and joining the directory list to a path are not modelled.
- UploadContent.PlainUpload: for a transfer and writes that report no error; `tokio::fs::File` finishes the last write in the background, which is taken as done.
- Compress.WorkerRefinesLocal: a worker's error is taken to be a truthy value, as its error events are.
- Shell.OutputInOrder: orders the stream on the websocket; the browser decodes compressed messages asynchronously and may hand them to its listeners in another order. Two instances of one name, one closing while the next one starts, are told apart by the model but not by the browser.
- The timeout of a sign-in and the delivery of its client's connection exclude each other in the model; in the library the timeout may win just after the connection was delivered, so that a client goes on whose sign-in has timed out. Its token is in neither map then.
- The sign-in queue and the rendezvous are two step relations. Nothing is lost by the cut: an attempt that has passed its check may stay so for any time, and a sign-in may begin at any time.
- In the tree, symbolic links are leaves; one at the end of a copy's source is followed (at most 40 in a row), one inside a path is not. Permissions and hard links are not modelled except as errors that can happen at any point.
- A copy of something that is neither file nor directory is answered with success and copies nothing; this is part of the effect of `FileTree.Disk.FsCp` and has no lemma of its own.
- `fs.unlink`, `fs.rm`, `fs.mkdir`, `fs.exists`, `fs.access`, `fs.trash`: each is one library call.
- `watch`: depends on the order of file system notifications; events after its close are possible.
- The zip archive of a download of several files, TLS, the accept loop, HTTP header parsing, the loopback test for a PUT, static assets, settings, and the user interface.
- Messages that are not JSON objects, which are answered with an error without a tag.
