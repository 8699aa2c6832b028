# AuraCoder: models and proofs

AuraCoder drives coding agents on a desktop, from that desktop or from a phone. This
project models the parts of it where several parties race over shared state, and the
parsers and arithmetic those parts rest on, and proves what they promise.

Each protocol is a state machine: a `State`, an `Event` for every critical section or
uninterrupted piece of one task, and a total `Step` (an event that cannot happen changes
nothing). A run is any sequence of events, so a statement about `Run(es)` covers every
interleaving. Beside a machine stands a class that updates its tables in place. Its methods
are either single handlers, proved to take exactly the machine's steps, or whole operations,
proved to reach the promised end state through reachable states. Histories, positions of
tasks and the like, which the program does not store, are ghost or observer fields.

| area | files |
|---|---|
| tunnel relay | `Relay`, `RelayMembership`, `RelayLifetime`, `RelayHeartbeat`, `RelayPresence`, `RelayRouting`, `RelayDelivery`, `RelayOwnership`, `RelayServer` |
| attachment store | `Attachments`, `AttachmentDisk`, `AttachmentOwnership` |
| MCP gateway | `Gateway`, `GatewayLeases`, `GatewayLife`, `GatewayCalls`, `GatewayRuns`, `GatewayServer`, `RpcIds` |
| mobile client | `RemoteClient`, `RemoteReconnect`, `RemoteBackoff`, `RemoteRequests`, `RemoteSending`, `RemoteIdentity`, `RemoteInbox`, `RemoteClientObject` |
| local CLI services | `CliRegistry`, `CliRegistrySafety`, `CliRegistryRuns`, `CliHealth`, `OpenCodeServices` |
| native calls | `NativeCalls`, `NativeWrapper` |
| approvals | `Approvals`, `ApprovalAdmission`, `ApprovalSafety`, `ApprovalRuns`, `ApprovalTurns`, `ApprovalService`, `RequestScope` |
| parsers and arithmetic | `ContentVersion`, `FileStore`, `DesktopEntry`, `EntryGrammar`, `EnvProbe`, `RootPaths` |
| shared | `Wrappers`, `Bytes`, `Numerals`, `Texts` |

Taken as given: fresh UUIDs, one JavaScript handler at a time, client callbacks that do not
re-enter the client, asynchronous Rust operations that run to completion, and the native
SDK's promise (no callback after a refused call, at most one after an admitted one).

What turned out to differ from what the code's own words suggest:

- The relay's close handler sends a notice to the tunnel's desktop without asking whether
  there is one. For the last mobile of a tunnel without a desktop it throws before the tunnel
  is deleted, so an empty tunnel stays, with its credential, until somebody joins it. It
  throws in exactly that case, and until it does no stored tunnel is empty
  (`RelayLifetime.HandlerThrowsIffLastMobile`, `StoredTunnelEmptyIff`,
  `NoEmptyTunnelUntilThrow`, `LoneMobileLeavesTunnelBehind`). The model lets runs go on after
  the throw; where the process dies of it, they end there.
- A replaced desktop's frames are still delivered under its tunnel id. They stay with its
  credential exactly while the tunnel of that id still has it
  (`RelayRouting.DesktopFrameStaysWithCredential`); once the tunnel has been deleted and
  opened again by a stranger, they reach the stranger's mobiles
  (`RelayOwnership.ReplacedDesktopServesStranger`). Attachments are filed under the tunnel id
  alone, so they too pass to the new owner (`AttachmentOwnership.StrangerDownloads`):
  downloader and uploader share the credential exactly if the lives of the tunnel they were
  let in during were opened with the same one
  (`AttachmentOwnership.DownloaderHasUploadersCredentialIff`).
- The health check's result is described as saying whether the registry was changed. It
  fails to say so exactly when OpenCode was registered, is not found, its servers do not
  stop, and no other CLI was added or removed; that removal is reported as an error only
  (`CliHealth.Registry.ReconcileHealth`; a run is `CliHealth.RemovalGoesUnreported`).
- A `terminate` that fails to stop OpenCode's servers leaves the service unregistered and
  its gateway lease working, until the next lease for the same CLI replaces it or a restart
  of the gateway clears it (`CliRegistrySafety.FailedTerminateOrphansLease`,
  `NextSetReplacesOrphan`; a run is `CliRegistryRuns.LeaseIsOrphaned`).
- A registered CLI service may hold a lease with which no request ever passes: cleared from
  the gateway's table by a restart, or inserted after one that its registration began before
  (`CliRegistryRuns.RegisteredLeaseIsStale`, `StaleForEver`). While the gateway runs the lease
  works exactly if no start has committed since its registration read the generation
  (`CliRegistrySafety.RegisteredLeaseWorksIff`), and it is in the table exactly if no start
  or shutdown has cleared that since (`RegisteredIsReadyAndLeasedIff`).
- A caller may be told that an approval timed out although the user's allow has been stored
  (`ApprovalRuns.GrantedButTimedOut`): a report comes to contradict the user exactly when
  the waiter leaves with another verdict from a request that the user's allow has already
  taken, or when a request left behind without a window is allowed after all
  (`ApprovalSafety.ContradictsIff`); for the latter nobody in the program knows the id. A request whose caller is done stays pending
  exactly if there was no window to show it in (`ApprovalSafety.EndedRequestStaysIff`,
  `ApprovalRuns.RefusedButPending`). `revoke_turn` reaches too far for ids with line breaks
  (`ApprovalTurns.LineBreakReachesTooFar`).
- A request that authenticated before its lease was revoked may register a call after the
  revocation has finished; that call runs on, tracked and uncancelled, without a lease
  (`GatewayRuns.LateCallRunsWithoutLease`). And of two concurrent calls of one lease with the
  same id the first is lost: its entry is taken over, and no cancellation reaches it
  (`GatewayCalls.RunningCallTrackedIff`, `GatewayRuns.LostCallOutlivesLease`). No other call
  outlives its lease (`GatewayCalls.RunningCallHasLeaseIffInTime`), and clients that keep
  their ids apart lose none (`GatewayCalls.DistinctIdsLoseNothing`).
- A desktop entry for a path with a line break has an Exec line that does not parse
  (`DesktopEntry.EntryRoundTrip`), and paths do not resolve faithfully below four kinds of
  root (`RootPaths.RoundTripIffGoodRoot`).

`dafny verify dfyconfig.toml` checks everything.

## Model

| member | source | states |
|---|---|---|
| RelayMembership.RunKeepsMembership | relay/src/relay.js:539-562 | in every reachable state each member of a stored tunnel presented that tunnel's credential hash and is not closed, every route names a current mobile, and routes imply a desktop |
| RelayLifetime.HandlerThrowsIffLastMobile | relay/src/relay.js:692-704 | in every reachable state a handler throws exactly if it is the close handler of the last mobile of a tunnel without a desktop |
| RelayLifetime.StoredTunnelEmptyIff | relay/src/relay.js:692-704 | in every run a stored tunnel is empty exactly if its last mobile left it without a desktop and nobody has joined it since |
| RelayLifetime.NoEmptyTunnelUntilThrow | relay/src/relay.js:686-704 | while no handler has thrown no stored tunnel is empty, and the first step to leave one empty is the one whose handler throws |
| RelayLifetime.LoneMobileLeavesTunnelBehind | relay/src/relay.js:692-704 | the run of three events in which a mobile comes alone and goes ends with the throw and the empty tunnel |
| RelayHeartbeat.TickSparesIffHeard | relay/src/relay.js:713-722 | in every run a tick leaves an open socket open exactly if it has connected, ponged or sent a frame after its hello since the tick before, told from the events alone |
| RelayHeartbeat.SilentSocketIsClosed | relay/src/relay.js:713-722 | a socket of which nothing is heard from one tick to the next is not open after the second |
| RelayHeartbeat.TickTouchesSocketsOnly | relay/src/relay.js:713-722 | a tick changes no tunnel, notice or history, and sockets only begin to close |
| RelayDelivery.HelloDecides | relay/src/relay.js:507-552 | a hello lets a socket not greeted before into its tunnel exactly if it is well-formed and opens the tunnel or presents its credential; any other only closes the socket |
| RelayDelivery.TimeoutClosesUngreeted | relay/src/relay.js:503-505 | the handshake timer closes an open socket that has not been greeted, and does nothing to one that has |
| RelayDelivery.MobileFrameFate | relay/src/relay.js:612-635 | a mobile's frame is forwarded exactly if the desktop is open and keeps up, a clogged desktop is closed, and the sender of a frame not forwarded is told that the desktop is away |
| RelayDelivery.DesktopFrameFate | relay/src/relay.js:637-669 | a desktop's frame is handed to exactly those of its audience that keep up, the others are closed, and without any mobile the sender is told so |
| RelayDelivery.OtherFramesGoNowhere | relay/src/relay.js:598-610 | binary frames, and frames for a tunnel that is gone, are handed to nobody and close nobody |
| RelayMembership.ReplacedMemberChangesNothing | relay/src/relay.js:679-704 | once a desktop has been replaced, or any member has gone, no later event makes it a member again, and its close event then changes no tunnel, no notice and no routing, in any continuation |
| RelayMembership.ReplacementRetiresDesktop | relay/src/relay.js:554-559 | a desktop hello with the right credential installs the newcomer and makes the previous desktop such a past member, no longer open |
| RelayPresence.PresenceAgreement | relay/src/relay.js:564-589 | in every reachable state: with an open desktop every open mobile was last told "online"; a mobile last told so has a desktop installed; an open desktop with an open mobile was last told so, and being told so implies some mobile |
| RelayRouting.RouteTableIsLiveRequester | relay/src/relay.js:612-634 | in every run the route table is, id by id, exactly the mobile that last forwarded the request and whose request has been neither answered nor dropped by a departure, as computed from the history alone |
| RelayRouting.ResponseReachesLiveRequester | relay/src/relay.js:637-669 | a response reaches exactly the live requester if it is open and not clogged, nobody otherwise, and afterwards that id has no requester |
| RelayRouting.RunAnswersLive | relay/src/relay.js:637-669 | every response ever delivered went to the mobile that was the live requester at that moment |
| RelayRouting.ResponseConservation | relay/src/relay.js:612-669 | per tunnel and request id, responses delivered never exceed requests forwarded, through replacement, closing, deletion and re-creation |
| RelayRouting.MobileFrameStaysWithCredential | relay/src/relay.js:612-635 | a mobile's frame is only ever handed to a desktop of its own tunnel that presented the same credential hash |
| RelayRouting.DesktopFrameStaysWithCredential | relay/src/relay.js:637-669 | in every reachable state a mobile that a desktop's frame reaches, be it the current desktop or a replaced one, presented that desktop's credential exactly if the tunnel of its id still has it |
| RelayRouting.CurrentDesktopHasTheCredential | relay/src/relay.js:539-562 | for the current members that is always so |
| RelayOwnership.ReplacedDesktopServesStranger | relay/src/relay.js:637-669 | a run after which a replaced desktop's frames are handed to the mobile of another credential |
| RelayOwnership.CredentialFixedWhileStored | relay/src/relay.js:168-183 | the credential that downloads, deletes and hellos of a tunnel id are checked against does not change while the tunnel stays stored |
| RelayOwnership.IdPassesToStranger | relay/src/relay.js:539-551 | a run in which the id of one owner's tunnel ends up under another's credential |
| RelayServer.Server.FirstMessage | relay/src/relay.js:507-596 | the hello handler, updating tunnels, sockets and notices in place, takes exactly the model's step |
| RelayServer.Server.ReceiveMessage | relay/src/relay.js:598-670 | the message handler takes exactly the model's step |
| RelayServer.Server.Closed | relay/src/relay.js:679-711 | the close handler, its loop over routes included, takes exactly the model's step, and reports the throw of the notice to a missing desktop as the step records it |
| RelayServer.Server.HeartbeatTick | relay/src/relay.js:713-722 | the heartbeat loop takes exactly the model's step |
| Attachments.StoreRefinesAtomicMap | relay/src/relay.js:205-270 | every step of uploads, deletes, clean-up and downloads, interleaved and crashing anywhere, is one step of an atomic map: nothing, one new key's own upload, or taking out a key that expired or that its own tunnel deletes |
| Attachments.DownloadReturnsTheUpload | relay/src/relay.js:372-406 | a 200 download returns exactly the bytes and metadata of the one upload of that key, of the requesting tunnel, unexpired when checked, and what the atomic map held then |
| Attachments.MissingMeansMissing | relay/src/relay.js:241-250 | a 404 means the atomic map had nothing to serve for that tunnel and key at the moment it was decided |
| Attachments.FailedUploadLeavesNothing | relay/src/relay.js:252-270 | an upload that fails at any stage and is undone leaves no file of its key, and the atomic map as it was |
| Attachments.PartialWriteStaysTemporary | relay/src/relay.js:252-270 | a write that stops short never takes the place of the data file |
| Attachments.LookupDecides | relay/src/relay.js:241-250 | a lookup starts a removal exactly if it finds its own tunnel's entry expired, turns into one exactly for an unexpired delete, and reads on exactly for an unexpired download |
| Attachments.CleanUpTakesExpired | relay/src/relay.js:213-239 | the clean-up takes on a key exactly if its metadata had expired when the scan began |
| Attachments.RemovalsTakeBothFiles | relay/src/relay.js:205-211 | the two removals of a task take both files of its key and no other |
| AttachmentOwnership.DownloaderHasUploadersCredentialIff | relay/src/relay.js:168-183 | with tunnels opening, closing and coming back, and crashes losing them all: a 200 download returns its one upload, and goes to a holder of the uploader's credential exactly if the two lives of the tunnel, the uploader's and the downloader's, were opened with the same credential; within one life always |
| AttachmentOwnership.SameLifeIffStoredThroughout | relay/src/relay.js:539-551 | from one moment at which a tunnel is stored to a later one it is in the same life exactly if it was stored at every moment between |
| AttachmentOwnership.StrangerDownloads | relay/src/relay.js:372-406 | a run in which a stranger who reopens the tunnel id downloads the first owner's file |
| AttachmentDisk.Directory.Persist | relay/src/relay.js:252-270 | a save adds exactly its two files, or, whichever step fails, leaves every file as it was |
| AttachmentDisk.Directory.CleanupExpired | relay/src/relay.js:213-239 | clean-up removes both files of exactly the expired entries, and returns how many |
| AttachmentDisk.Directory.Download | relay/src/relay.js:372-406 | a download finds the whole entry exactly if it is servable to that tunnel now, and removes at most that entry, and only if expired |
| GatewayLeases.RunningIffAddress | src-tauri/src/mcp_gateway.rs:264-355 | in every interleaving the gateway is Running exactly when a local address is set, and at most one start or shutdown is under way |
| GatewayLife.NeverTwoServers | src-tauri/src/mcp_gateway.rs:264-355 | through starts, shutdowns and failures, in every interleaving, at most one server task has not exited |
| GatewayLife.StoppedLeavesNoServer | src-tauri/src/mcp_gateway.rs:331-355 | when the gateway is stopped and no operation is under way every server has exited |
| GatewayLife.WaitsForStoppingOnly | src-tauri/src/mcp_gateway.rs:264-355 | an operation never waits for a server that has not been told to stop |
| GatewayLife.StartWhileRunningIsIdle | src-tauri/src/mcp_gateway.rs:264-272 | starting a gateway that runs or is starting changes nothing |
| GatewayLife.BrokenServerFailsGateway | src-tauri/src/mcp_gateway.rs:532-541 | a server that breaks leaves the gateway failed and without address, and no request passes |
| GatewayLife.LeasesAreNamed | src-tauri/src/mcp_gateway.rs:375-390 | in every run each lease, wherever it is held, names its engine and instance and is of a generation that has run |
| GatewayLife.SessionIsItsLeases | src-tauri/src/mcp_gateway.rs:734-741 | a session made under a lease lets later requests pass exactly if they are of that lease |
| GatewayLeases.RunKeepsLeases | src-tauri/src/mcp_gateway.rs:384-417 | the table never holds two leases of one engine instance, and every lease in it or in a request's hands carries the generation issued for its token |
| GatewayLeases.PassesOnlyCurrent | src-tauri/src/mcp_gateway.rs:582-618 | a request passes the checks only while Running and with a token issued for the current generation |
| GatewayLeases.CommitStalesEverything | src-tauri/src/mcp_gateway.rs:264-317 | the commit of a start makes every lease issued before it, and every registration that read the generation before it, stale |
| GatewayLeases.StaleTokenNeverPasses | src-tauri/src/mcp_gateway.rs:582-618 | a token issued for a past generation is refused in every continuation |
| GatewayLeases.LateInsertNeverPasses | src-tauri/src/mcp_gateway.rs:375-433 | a registration that read its generation before a restart and inserts after it never yields a token that passes |
| RpcIds.ActiveCallKeyInjective | src-tauri/src/mcp_gateway.rs:1119-1126 | two active-call keys are equal exactly if token and request id are, for every string, integer or null id of section 4 of the JSON-RPC 2.0 specification |
| RpcIds.EscapeInjective | src-tauri/src/mcp_gateway.rs:1119-1126 | escaped JSON strings are equal only for equal texts |
| GatewayCalls.EveryCallTrackedOrCancelled | src-tauri/src/mcp_gateway.rs:994-1060 | every call in flight is tracked under its own key, already cancelled, or lost to another call of the same lease and id, and every tracked entry is a call of that very lease and id |
| GatewayCalls.RunningCallTrackedIff | src-tauri/src/mcp_gateway.rs:994-1060 | in every run, whatever ids clients use: a running uncancelled call is tracked exactly if no call of the same lease and id was registered over it or has returned since |
| GatewayCalls.DistinctIdsLoseNothing | src-tauri/src/mcp_gateway.rs:994-1060 | if no two calls ever run at once with the same lease and id, none is lost |
| GatewayCalls.CancelNoteHitsOwnCall | src-tauri/src/mcp_gateway.rs:691-702 | a cancel notification can only cancel a call of its own lease with its own id |
| GatewayCalls.PurgeCancelsEveryCall | src-tauri/src/mcp_gateway.rs:143-159 | the last section of a revocation or replacement cancels exactly those running calls of its leases that were not lost |
| GatewayCalls.DrainCancelsEveryCall | src-tauri/src/mcp_gateway.rs:331-355 | the drain of a restart or shutdown cancels exactly the running calls that were not lost, and leaves no entry |
| GatewayCalls.TrackedCallsStayLive | src-tauri/src/mcp_gateway.rs:399-430 | with the program's separate locks: in every run in which each call was registered while its lease was live or a cancellation was on its way, every tracked uncancelled call still has the one or the other |
| GatewayCalls.RunKeepsLate | src-tauri/src/mcp_gateway.rs:994-1011 | in every run the calls registered too late hold tokens that never work again, and all others are cancelled, or belong to a live lease or a cancellation on its way |
| GatewayCalls.RunningCallHasLeaseIffInTime | src-tauri/src/mcp_gateway.rs:399-430 | in every run, once nothing is under way, a running call neither cancelled nor lost belongs to a live lease exactly if it was not registered too late |
| GatewayCalls.LateCallKeepsTrackingIff | src-tauri/src/mcp_gateway.rs:994-1011 | in every such state, registering a call for an authenticated request keeps all tracked calls live exactly if its lease is live or a cancellation is on its way |
| GatewayRuns.LateCallRunsWithoutLease | src-tauri/src/mcp_gateway.rs:994-1011 | a run in which a request checked before a revocation registers its call after it, and the call ends up tracked, uncancelled and without a lease, with nothing under way |
| GatewayRuns.LostCallOutlivesLease | src-tauri/src/mcp_gateway.rs:994-1060 | a run in which two calls of one lease share an id, the lease is revoked, and the first call runs on uncancelled |
| GatewayServer.Server.Register | src-tauri/src/mcp_gateway.rs:375-433 | a whole registration: refused exactly unless running and fully named; else the new lease replaces those of the instance, exactly their sessions go and their tracked calls are cancelled |
| GatewayServer.Server.Revoke | src-tauri/src/mcp_gateway.rs:143-161 | a whole revocation: the lease and exactly its sessions go, its tracked calls are cancelled; nothing for an unknown token |
| GatewayServer.Server.StartUp | src-tauri/src/mcp_gateway.rs:264-317 | a whole start: nothing if running; else no lease, session or tracked call of the past is left, all those calls are cancelled, and it runs under the next generation or has failed |
| GatewayServer.Server.ShutDown | src-tauri/src/mcp_gateway.rs:331-355 | a whole shutdown: stopped, without address, leases, sessions or entries, every tracked call cancelled |
| GatewayServer.Server.InsertLease | src-tauri/src/mcp_gateway.rs:398-417 | the scan finds exactly the leases of that instance, which the new one replaces |
| GatewayServer.Server.DropSessions | src-tauri/src/mcp_gateway.rs:418-422 | the loop drops exactly the sessions of revoked leases |
| GatewayServer.Server.CancelCalls | src-tauri/src/mcp_gateway.rs:423-430 | the loop cancels exactly the tracked calls of revoked leases |
| GatewayServer.Server.NoteCancelled | src-tauri/src/mcp_gateway.rs:691-702 | a whole cancel request: it passes exactly with a lease in the table, of the running generation, and its own session if any; it cancels the tracked call of its own lease and id and no other |
| GatewayServer.Server.BeginToolCall | src-tauri/src/mcp_gateway.rs:994-1005 | the start of a tool call: registered exactly if its request passes and its lease has a trusted context, over no call but one of the same lease and id |
| RemoteReconnect.LoopNeverStallsNorDoubles | mobile/src/remote.ts:136-247 | between callbacks a running client has exactly one of a live socket and one armed retry timer, of the current generation, and a stopped client has neither, in every run |
| RemoteReconnect.StaleCallbacksKeepLoop | mobile/src/remote.ts:217-238 | a close or error of a socket that is not the installed one of this generation changes nothing at all |
| RemoteReconnect.LoopProgresses | mobile/src/remote.ts:240-247 | a waiting client has a timer whose firing can install a socket, and losing the socket arms one |
| RemoteBackoff.FailureWaits | mobile/src/remote.ts:240-247 | every failure arms the one timer, with one, two, five, ten, then always thirty seconds for one failure after another since connecting, resuming or the relay's greeting, as counted from the events |
| RemoteRequests.MakeIdInjective | mobile/src/remote.ts:104-134 | request ids of different sequence numbers differ, whatever clock and random part |
| RemoteRequests.RequestIdsNeverRepeat | mobile/src/remote.ts:104-134 | a new request never gets an id issued before |
| RemoteRequests.RequestsSettleAtMostOnce | mobile/src/remote.ts:357-363 | each request ever issued is either pending and unsettled, or settled exactly once |
| RemoteRequests.NothingPendingAfterLoss | mobile/src/remote.ts:217-238 | connecting anew, disconnecting, suspending, and loss of the installed socket leave no request pending, no timer armed, and every request settled once |
| RemoteRequests.LateOutcomesDoNothing | mobile/src/remote.ts:191-199 | a response or failed send for a settled request changes nothing, and no timer of such a request is armed |
| RemoteSending.RunFollows | mobile/src/remote.ts:217-238 | in every run the client takes its socket for open and the desktop for online exactly as the messages received, the losses of the link and the outcomes of identity and pairing requests tell |
| RemoteSending.AskSendsIffOnline | mobile/src/remote.ts:104-134 | a page's request issues exactly one pending request if a socket is installed and open and the desktop is online by that account, and changes nothing otherwise |
| RemoteSending.NoticeAsks | mobile/src/remote.ts:249-356 | an online notice over an open socket issues exactly one identity request for a client with a credential, exactly one pairing request for one with a token only, none while that request waits or without either |
| RemoteSending.OfflineIssuesNothing | mobile/src/remote.ts:184-190 | from an offline notice, or whatever else takes the desktop away, until the next online notice no request of any kind is issued |
| RemoteIdentity.ClientHolds | mobile/src/remote.ts:249-356 | in every run the configuration, the device identity and the events received are exactly what the calls and answers so far tell |
| RemoteIdentity.OldSocketsAreDead | mobile/src/remote.ts:52-102 | once the user connects anew, disconnects, suspends or resumes, no callback of a socket made before changes anything, in any continuation |
| RemoteIdentity.SuspendThenResume | mobile/src/remote.ts:80-102 | going to the background and back keeps the configuration and everything received, under a new connection with the backoff reset |
| RemoteIdentity.DisconnectedStaysSo | mobile/src/remote.ts:62-102 | after disconnecting there is nothing to suspend or resume |
| RemoteInbox.DeferralRefinesFiltering | mobile/src/remote.ts:200-214 | with one identity since connecting, what is handed on is in arrival order exactly what is addressed to it, among the newest 1000 held before and everything since |
| RemoteInbox.BufferKeepsNewest | mobile/src/remote.ts:201-209 | before an identity is known the buffer is the newest 1000 targeted events, and none has been handed on |
| RemoteInbox.NoForeignDelivery | mobile/src/remote.ts:210-213 | no event addressed to another device is ever handed on, whatever identities come and go |
| RemoteInbox.PlainEventsPassThrough | mobile/src/remote.ts:211-213 | events without a target are all handed on, in arrival order |
| RemoteClientObject.Client.DoConnect | mobile/src/remote.ts:52-60 | `connect` takes the model's step |
| RemoteClientObject.Client.DoSuspend | mobile/src/remote.ts:80-94 | `suspend` takes the model's step |
| RemoteClientObject.Client.RejectPending | mobile/src/remote.ts:357-363 | the loop rejecting requests clears exactly their timers and settles each once |
| RemoteClientObject.Client.OnClose | mobile/src/remote.ts:217-225 | the close callback takes the model's step |
| RemoteClientObject.Client.OnError | mobile/src/remote.ts:227-238 | the error callback takes the model's step |
| RemoteClientObject.Client.OnMessageReceived | mobile/src/remote.ts:166-215 | the message callback takes the model's step |
| RemoteClientObject.Client.FlushDeferredEvents | mobile/src/remote.ts:365-373 | flushing hands on the held events and empties the buffer, as the model says |
| CliRegistrySafety.RunKeepsRegistry | src-tauri/src/local_cli_service_lifecycle.rs:766-910 | in every interleaving with the gateway, its starts and shutdowns and its other users: one holder of the mutation lock, what it has done so far still true, every registered service ready unless its terminator is between marking and removing it, and its lease in the table unless a start or shutdown cleared it |
| CliRegistrySafety.RunKeepsAccounts | src-tauri/src/local_cli_service_lifecycle.rs:798-846 | every CLI lease in the table belongs to a registered service, to the lock holder's current work, or to a `terminate` that gave up |
| CliRegistrySafety.RegisteredIsReadyAndLeasedIff | src-tauri/src/local_cli_service_lifecycle.rs:766-879 | whenever the mutation lock is free every registered CLI service is ready, and its lease is in the gateway's table exactly if no start or shutdown has cleared that since the lease was inserted |
| CliRegistrySafety.RegisteredLeaseWorksIff | src-tauri/src/mcp_gateway.rs:582-618 | and while the gateway runs, a request with that lease passes exactly if no start has committed since its registration read the generation |
| CliRegistryRuns.RegisteredLeaseIsStale | src-tauri/src/mcp_gateway.rs:375-433 | a run across a restart that ends with a service registered and ready, its lease in the table, the gateway running, and requests with the lease refused |
| CliRegistryRuns.StaleForEver | src-tauri/src/mcp_gateway.rs:582-618 | and refused in every continuation of the gateway |
| CliRegistrySafety.SetAndTerminateNeverMeetTermination | src-tauri/src/local_cli_service_lifecycle.rs:766-879 | only `get` can meet a terminating service; neither `set` nor `terminate` can, and no insertion by `set` is ever lost |
| CliRegistrySafety.FailedSetLeavesNoLease | src-tauri/src/local_cli_service_lifecycle.rs:798-846 | the lease taken by a `set` that failed is out of the gateway's table, in every continuation |
| CliRegistrySafety.LeasesAreExactlyTheServices | src-tauri/src/local_cli_service_lifecycle.rs:881-910 | with the lock free, a token that no failed `terminate` orphaned is in the gateway's table as a CLI lease exactly if it is a registered service's and no start or shutdown has cleared the table since it was taken |
| CliRegistrySafety.FailedTerminateOrphansLease | src-tauri/src/local_cli_service_lifecycle.rs:895-907 | a `terminate` that fails to stop the service's children leaves it unregistered, its lease in the table unless that was cleared, and working, while the gateway runs, exactly if of the running generation |
| CliRegistryRuns.LeaseIsOrphaned | src-tauri/src/local_cli_service_lifecycle.rs:895-907 | a run from a fresh registry to such a `terminate`, after which requests with the lease still pass |
| CliRegistrySafety.NextSetReplacesOrphan | src-tauri/src/local_cli_service_lifecycle.rs:798-801 | the next lease inserted for that CLI is then its only one |
| CliRegistrySafety.ReRegistrationIsNewer | src-tauri/src/local_cli_service_lifecycle.rs:848-865 | once a service has been removed, any later registration of the same CLI has a strictly larger generation |
| CliRegistrySafety.LeaseSpared | src-tauri/src/mcp_gateway.rs:133-160 | a lease outlives every gateway step but its own revocation, its replacement and the clearing of the table |
| CliRegistrySafety.GetAnswers | src-tauri/src/local_cli_service_lifecycle.rs:690-708 | with the mutation lock free `get` returns exactly the registered service, and reports any other CLI as not registered |
| CliRegistrySafety.GetReportsTermination | src-tauri/src/local_cli_service_lifecycle.rs:701-708 | a service looked up before is reported as terminating exactly if it has been marked by the time of the check |
| CliRegistrySafety.GetNeedsNoLock | src-tauri/src/local_cli_service_lifecycle.rs:690-700 | the lookup of `get` goes on whoever holds the lock |
| CliRegistrySafety.TerminateNeedsService | src-tauri/src/local_cli_service_lifecycle.rs:881-884 | terminating fails as not registered exactly for CLIs that are not |
| CliRegistrySafety.FailedBuildRevokes | src-tauri/src/local_cli_service_lifecycle.rs:838-846 | a service that cannot be built ends the `set` with the lock free and its lease out of the table |
| CliHealth.Registry.SetCli | src-tauri/src/local_cli_service_lifecycle.rs:766-879 | a whole `set`: a registered service is returned untouched; otherwise a new one of the next generation is registered, ready and alone in its lease, or nothing is registered and no lease of the attempt stays |
| CliHealth.Registry.TerminateCli | src-tauri/src/local_cli_service_lifecycle.rs:881-910 | a whole `terminate`: afterwards the CLI is not registered, and its lease is gone exactly if the call succeeded |
| CliHealth.Registry.ReconcileHealth | src-tauri/src/local_cli_service_lifecycle.rs:611-661 | errors are exactly the CLIs out of step whose action failed; every other listed CLI ends registered exactly if found; `changed` means some action succeeded, and tells whether the registered set changed except exactly for a failed OpenCode removal with no other action succeeding, as the state before shows |
| CliHealth.RemovalGoesUnreported | src-tauri/src/local_cli_service_lifecycle.rs:625-652 | from an empty registry: OpenCode is set up, then not found and its children do not stop; the health check removes it and reports no change |
| CliHealth.Registry.TerminateEvery | src-tauri/src/local_cli_service_lifecycle.rs:912-933 | stopping everything leaves nothing registered, fails exactly if OpenCode's children did not stop, and leaves exactly the leases nobody owned or that failure kept |
| OpenCodeServices.NeverTwoServersForOneDirectory | src-tauri/src/local_cli_service_lifecycle.rs:160-188 | in every interleaving of lookups and terminations at most one server per directory has not been told to stop, and those are the registered ones and those the lock holder is moving |
| OpenCodeServices.AliveIffRegistered | src-tauri/src/local_cli_service_lifecycle.rs:205-238 | with the lock free the servers not told to stop are exactly the registered ones |
| OpenCodeServices.EndpointIsRegisteredAndAlive | src-tauri/src/local_cli_service_lifecycle.rs:160-188 | an endpoint is handed out only for a server registered for that directory and not yet told to stop; one that has crashed by itself is still handed out |
| OpenCodeServices.FirstLookNeedsNoLock | src-tauri/src/local_cli_service_lifecycle.rs:160-167 | a registered server is found even while another call holds the lock |
| OpenCodeServices.Handle.Endpoint | src-tauri/src/local_cli_service_lifecycle.rs:160-188 | a whole lookup: the registered server, or else a new one registered for the directory, or else nothing changes |
| OpenCodeServices.Handle.TerminateAll | src-tauri/src/local_cli_service_lifecycle.rs:216-238 | a whole shutdown: nothing stays registered, every server has been told to stop whether or not others fail, and success means that all stopped |
| OpenCodeServices.Handle.TerminateCwd | src-tauri/src/local_cli_service_lifecycle.rs:205-213 | the directory's server, and no other, is unregistered and told to stop |
| NativeCalls.NothingGoneIsUsed | src-tauri/src/computer_control_sdk.rs:979-1148 | in no interleaving of admission, callback, timeout, cancel, release and shutdown is freed memory, a released handle, a destroyed driver or an unmapped library used |
| NativeCalls.BoxReclaimedExactlyOnce | src-tauri/src/computer_control_sdk.rs:1069-1129 | a call's context box is reclaimed at most once, and has been exactly if the call was refused or its callback has ended |
| NativeCalls.HandleReleasedExactlyOnce | src-tauri/src/computer_control_sdk.rs:1130-1148 | the operation handle is released at most once, is not live once the call returned, and is never cancelled after its release |
| NativeCalls.StateFreedExactlyAfterBoth | src-tauri/src/computer_control_sdk.rs:979-1001 | the completion state is freed exactly when both the caller and the callback are done with it |
| NativeCalls.UnmappedOnlyWithoutCalls | src-tauri/src/computer_control_sdk.rs:955-966 | the library is unmapped at most once and only if no asynchronous call was ever attempted; a closed runtime keeps it mapped exactly if one was |
| NativeCalls.DriverDestroyedExactlyOnce | src-tauri/src/computer_control_sdk.rs:1307-1339 | a closed runtime has destroyed its driver exactly as often as it created one, at most once |
| NativeCalls.LateCallbackCompletes | src-tauri/src/computer_control_sdk.rs:979-1001 | a callback still owed runs to its end without fault and frees its box once, however late, even after the runtime closed |
| NativeCalls.EndsWithValueOrCancelled | src-tauri/src/computer_control_sdk.rs:1130-1148 | in every run a call ends only with its value or after it was cancelled, and is cancelled only after it has waited in vain |
| NativeWrapper.Wrapper.Create | src-tauri/src/computer_control_sdk.rs:1152-1213 | creation is all or nothing: whatever fails, the driver made so far is destroyed once and the library unmapped |
| NativeWrapper.Wrapper.Callback | src-tauri/src/computer_control_sdk.rs:979-1001 | a callback, whenever it comes, stores its value, frees its context once and touches no other call |
| NativeWrapper.Wrapper.CallAsync | src-tauri/src/computer_control_sdk.rs:1069-1149 | a whole call: the value is returned exactly if the call was admitted and its callback came in time; on return the handle has been released once, and the context freed once or still owed to a late callback |
| NativeWrapper.Wrapper.Shutdown | src-tauri/src/computer_control_sdk.rs:1307-1339 | a whole shutdown, whatever becomes of its call: closed, the driver destroyed as often as created, the library still mapped, earlier calls untouched; on a closed runtime nothing |
| ApprovalSafety.AtMostOneDecision | src-tauri/src/computer_control_service.rs:1185-1267 | each request is taken by at most one of respond, the revocations and its own waiter, and is pending exactly until then |
| ApprovalSafety.VerdictMatchesDecision | src-tauri/src/computer_control_service.rs:1422-1436 | what a waiter reports was decided: an approval by the user's allow alone, a denial by the user or a revocation, "no longer valid" by an allow that could not be stored |
| ApprovalSafety.GivingUpDecidesIffStillPending | src-tauri/src/computer_control_service.rs:1422-1436 | a waiter that leaves decides the request exactly if nobody has taken it by then, and reports its own verdict either way |
| ApprovalSafety.ContradictsIff | src-tauri/src/computer_control_service.rs:1422-1436 | in every reachable state and for every step: a report contradicts the user's allow afterwards exactly if it did before, or the waiter now leaves, with another verdict, a request the user has allowed, or the user now allows one left behind without a window |
| ApprovalRuns.GrantedButTimedOut | src-tauri/src/computer_control_service.rs:1185-1217 | for every admissible request without a stored grant there is a run in which the user allows it, the grant is stored, and the caller is told it timed out |
| ApprovalSafety.EndedRequestStaysIff | src-tauri/src/computer_control_service.rs:1157-1163 | in every reachable state: a request whose waiter ends stays in the table exactly if it was pending and ended for want of a window |
| ApprovalSafety.LeftPendingWithoutWindow | src-tauri/src/computer_control_service.rs:1157-1163 | in every run a request with nobody waiting is pending exactly if it was left behind for want of a window and nobody has taken it since |
| ApprovalRuns.RefusedButPending | src-tauri/src/computer_control_service.rs:1157-1163 | for every admissible request without a stored grant there is a run that ends with its caller failed and the request pending |
| ApprovalSafety.SdkReachedOnlyWithApproval | src-tauri/src/computer_control_service.rs:1290-1371 | the SDK is called only on an allow of the user for this very request, or for an earlier one about the same target, or on a grant stored before the program started |
| ApprovalAdmission.BarredNeverGetsIn | src-tauri/src/computer_control_service.rs:1302-1352 | in every run from any stored grants: an invocation whose ids are blank, whose service, SDK or tool is not there, or whose arguments on some path name the own process or the desktop, fails at once and for good; any other is let in and stays about the target and trimmed ids it brought |
| ApprovalAdmission.BeginAdmits | src-tauri/src/computer_control_service.rs:1302-1352 | the moment it begins it is checked with just those, or failed |
| ApprovalRuns.AllowReachesSdk | src-tauri/src/computer_control_service.rs:1353-1371 | for every admissible request without a stored grant, an allow given in time does reach the SDK |
| ApprovalRuns.GrantReachesSdk | src-tauri/src/computer_control_service.rs:1353-1371 | under a stored grant every admissible request reaches the SDK without a question |
| ApprovalTurns.RevokeTurnIsExact | src-tauri/src/computer_control_service.rs:1239-1267 | for ids without line breaks `revoke_turn` takes exactly the pending requests of that thread, or of that turn of it |
| ApprovalTurns.ThreadPrefixIffFirstLine | src-tauri/src/computer_control_service.rs:1239-1255 | for any stored thread id, revoking a whole thread matches exactly if the given id is its first line |
| ApprovalTurns.LineBreakReachesTooFar | src-tauri/src/computer_control_service.rs:1246-1255 | for every thread id with a line break, revoking the different thread named by its first line takes its requests exactly if that line has no blanks at its ends |
| ApprovalTurns.RevokeAllAndOne | src-tauri/src/computer_control_service.rs:1225-1237 | revoking everything leaves nothing pending, revoking one request takes just that one |
| ApprovalService.Service.MatchingIds | src-tauri/src/computer_control_service.rs:1246-1258 | the scan of the pending table finds exactly the matching requests |
| ApprovalService.Service.RevokeMatching | src-tauri/src/computer_control_service.rs:1225-1267 | a whole revocation: exactly the matching requests leave the table, each decided by this alone and sent a denial, and no other is touched |
| ApprovalService.Service.Respond | src-tauri/src/computer_control_service.rs:1185-1223 | a whole answer: nothing unless pending; else it alone decides the request, an allow is stored in place of other grants for the target, and the answer sent, or, if it cannot be stored, the channel dropped |
| ApprovalService.Service.Abandon | src-tauri/src/computer_control_service.rs:1422-1436 | a caller giving up: its request is not pending afterwards, and withdrawn by this exactly if it still was |
| ApprovalService.Service.Authorize | src-tauri/src/computer_control_service.rs:1354-1371 | a stored grant clears the invocation at once; without one its request becomes pending, and nothing else changes |
| ApprovalService.Service.Withdraw | src-tauri/src/computer_control_service.rs:1085-1117 | withdrawing a request: the grants for its target go if it gave one, it is refused if still pending, and the result says whether either happened |
| ApprovalService.Service.SendDenials | src-tauri/src/computer_control_service.rs:1264-1267 | the loop sends every revoked request, and no other, "no" |
| RequestScope.ContainsPidIffSomewhere | src-tauri/src/computer_control_service.rs:147-165 | the recursive check finds a process id exactly if some object at some path of the arguments names it |
| RequestScope.ContainsDesktopIffSomewhere | src-tauri/src/computer_control_service.rs:168-188 | likewise for a desktop scope |
| RequestScope.NamesPidIff | src-tauri/src/computer_control_service.rs:147-165 | an object names the process id exactly if its field "pid" is that number, within 32 bits |
| RequestScope.NamesDesktopIff | src-tauri/src/computer_control_service.rs:168-188 | an object names the desktop exactly if its field "scope" or "capture_scope" is that word, in any case of ASCII letters |
| ContentVersion.ComputeVersion | src-tauri/src/fs_ops.rs:312-319 | the byte loop computes the version the specification function gives |
| ContentVersion.StepInjective | src-tauri/src/fs_ops.rs:314-317 | one FNV-1a step forgets neither the 64-bit state nor the byte |
| ContentVersion.CommonEnding | src-tauri/src/fs_ops.rs:314-317 | two contents with the same ending hash alike exactly if what comes before does |
| ContentVersion.SameVersionIff | src-tauri/src/fs_ops.rs:312-319 | two contents share a version exactly if they share length and hash |
| ContentVersion.EditChangesVersion | src-tauri/src/fs_ops.rs:312-319 | contents of different length, or of equal length differing in exactly one byte, never share a version |
| ContentVersion.HashOf | src-tauri/src/fs_ops.rs:312-319 | the hash starts from the 64-bit offset basis and takes in byte after byte by exclusive or and the prime |
| ContentVersion.XorBitwise | src-tauri/src/fs_ops.rs:314-317 | the exclusive or differs from its operands bit by bit |
| ContentVersion.HexReadsBack | src-tauri/src/fs_ops.rs:312-319 | the digits in the version read back as the hash |
| FileStore.Files.Read | src-tauri/src/fs_ops.rs:87-115 | reading reports the bytes on disk, their size and version, or, each exactly when it applies: not found, outside the root, over 10 MB, unreadable |
| FileStore.TextIsReadWhole | src-tauri/src/fs_ops.rs:103-108 | a file without a NUL among its first 8192 bytes is read whole and as text, whatever follows |
| FileStore.NulMakesBinary | src-tauri/src/fs_ops.rs:103-108 | with a NUL there it is binary, and only its size and version are returned |
| FileStore.SavedTextReadsBack | src-tauri/src/fs_ops.rs:87-115 | saved text without a NUL reads back as exactly that text |
| FileStore.Files.Write | src-tauri/src/fs_ops.rs:266-310 | if any file changes, the path was an existing one inside the root or a new one whose directory is inside; every other place has its own error, given case by case, and a write let through stores the content and returns its version |
| FileStore.StaleWriteRefused | src-tauri/src/fs_ops.rs:277-288 | a write with the version of what was read is refused after a deletion, as exactly that, and after an edit of the length or of exactly one byte |
| FileStore.GuardedWriteIffSameVersion | src-tauri/src/fs_ops.rs:277-288 | with the disk working, a guarded write is let through exactly if the file still has the read content's length and hash |
| FileStore.SaveThenRead | src-tauri/src/fs_ops.rs:306-310 | the version a save returns is what the next read reports, which works exactly up to 10 MB, and lets the next save through |
| DesktopEntry.ExecRoundTrip | src-tauri/src/linux_appimage.rs:149-162 | parsing the quoted path followed by " %U" gives every non-empty path back ("The Exec key", Desktop Entry Specification), and nothing for the empty one |
| DesktopEntry.EntryRoundTrip | src-tauri/src/linux_appimage.rs:141-147 | the same through the whole written entry, exactly for non-empty paths without a line break |
| EntryGrammar.ExecLineMeans | src-tauri/src/linux_appimage.rs:275-311 | an Exec line made of plain, escaped and doubled characters and quotes means those characters up to the first blank outside quotes, field code or end; an open quote, a lone backslash or an empty command means nothing |
| EntryGrammar.EveryLineHasForm | src-tauri/src/linux_appimage.rs:275-311 | every line is of that form, so its meaning is always given |
| EntryGrammar.OrdinaryCommandParses | src-tauri/src/linux_appimage.rs:275-311 | an ordinary command parses to itself alone, before blanks and arguments, and before a field code; after an unclosed quote or before a lone backslash it does not |
| EntryGrammar.KeyIsFirstInGroup | src-tauri/src/linux_appimage.rs:250-273 | a key's value is that of the first line of the entry's own group that sets it, never of a comment, a header or another group, and missing exactly if there is none |
| DesktopEntry.StringRoundTrip | src-tauri/src/linux_appimage.rs:164-176 | an escaped string value stays on one line and reads back as it was ("Possible value types", Desktop Entry Specification) |
| DesktopEntry.EscapeExecArgument | src-tauri/src/linux_appimage.rs:149-162 | the quoting loop computes the specification function |
| DesktopEntry.ParseExecCommand | src-tauri/src/linux_appimage.rs:275-311 | the parsing loop, with its flag and iterator, computes the specification function |
| DesktopEntry.FindKey | src-tauri/src/linux_appimage.rs:250-273 | the loop over lines computes the specification function |
| EnvProbe.ProbeRoundTrip | src-tauri/src/runtime_env.rs:555-600 | parsing quiet noise, the marker and the `env -0` rendering of any proper list gives exactly that list as a map |
| EnvProbe.EveryPieceCounts | src-tauri/src/runtime_env.rs:571-600 | after the marker every piece, the last one without a NUL included, sets its variable if it has a name before its first '=', and is passed over otherwise |
| EnvProbe.UpdateTakesTheLast | src-tauri/src/runtime_env.rs:594-597 | of several entries with one name the last wins |
| EnvProbe.NoMarkerNoEnvironment | src-tauri/src/runtime_env.rs:576-582 | output in which no NUL follows the marker yields nothing |
| EnvProbe.ParseOutput | src-tauri/src/runtime_env.rs:571-600 | the parsing loop computes the specification function |
| RootPaths.NormalizeIsIdempotent | src/lib/fileRootUtils.ts:2-11 | normalising twice is normalising once, on every string |
| RootPaths.NormalizeIsNormal | src/lib/fileRootUtils.ts:2-11 | every result has forward slashes only, none doubled but a share's first two, none at the end but a root's, and a capital drive letter |
| RootPaths.NormalizeAbsolutePath | src/lib/fileRootUtils.ts:2-11 | the successive replacements give the specification function's value, and always a normal form |
| RootPaths.ResolveRoundTrip | src/lib/fileRootUtils.ts:22-36 | below a good root every path resolves within the root and comes back with its slashes cleaned up |
| RootPaths.RoundTripIffGoodRoot | src/lib/fileRootUtils.ts:14-36 | that holds for every path exactly if the root normalises to something other than nothing, `X:/`, a bare capital drive, or a bare drive behind a slash |

## Left out

- Sockets, HTTP, multipart parsing, timers as real time, file-system calls, processes, SQLite and the user interface: only the events and outcomes they produce are modelled.
- Tunnels, sockets and service objects are values in maps of one object, so aliasing between references to one tunnel or service is not modelled.
- Relay: whether the process survives an exception thrown by a handler; runs go on as if it did.
- RelayServer.Server.HeartbeatTick: a terminated socket's close event comes as a separate event, as it does in the program.
- Attachments: handlers interleave at their awaits as steps on values; `AttachmentDisk` has the loops and the clean-up on failure, one handler at a time.
- AttachmentDisk.Directory.Download: file-system errors other than a missing file are not modelled.
- AttachmentOwnership: the checks of a credential's length and of a tunnel id's form; the credential is its hash.
- Gateway: saturation of the 64-bit generation counter, the catalog of tools, session headers beyond their token, and requests after their checks other than tool calls and cancellations; calls without an id, which the program keys by a fresh UUID.
- GatewayServer: one operation at a time; the end of a tool call is in `Gateway` only.
- RpcIds.ActiveCallKeyInjective: fractional numbers and structured values as request ids.
- RemoteClient: re-entrant user callbacks; the client's fields are grouped into three records.
- RemoteInbox.DeferralRefinesFiltering: for runs in which the identity is set once since connecting; changes from one identity to another are covered by `NoForeignDelivery` only.
- CliRegistry: other users of the same instance id; `set` and `terminate` do not wait for the last section of the gateway's purge; `list_ready` and the trusted-context calls are not modelled.
- CliHealth.Registry.ReconcileHealth: nobody else changes the registry during the loop, the gateway starts or shuts down only between calls, and the text of errors is reduced to the CLI they concern.
- OpenCodeServices.Handle: one call at a time; `OpenCodeServices` has the calls in separate sections.
- NativeCalls: a poisoned lock in the completion state, the JSON calls that do not transfer ownership, and the SDK itself beyond its stated contract.
- NativeWrapper.Wrapper.CallAsync: one caller at a time, and the moment of the callback is a parameter; `NativeCalls` has every interleaving.
- ApprovalSafety.SdkReachedOnlyWithApproval: a stored grant withdrawn between the check and the call still counts, as it does in the program.
- ApprovalService: one call at a time, without the caller's wait for the window and for the answer, which are in `Approvals` only.
- Approvals: how a target is derived from the arguments, and which application a stored grant resolves to when it is withdrawn, come from outside.
- RequestScope: JSON numbers other than 64-bit unsigned ones, booleans and null are one value.
- FileStore: symbolic links and canonical paths; where a path leads is a parameter. Lossy decoding of text is left out: contents are bytes.
- DesktopEntry: `TryExec` is written but its reading is not followed; the version number in the entry is a parameter.
- EnvProbe: the filter of variables and the shells' command lines are not modelled.
- RootPaths: case folding of letters outside ASCII.
