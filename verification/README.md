# Verification models for Tyde

Machine-checked models of the parts of Tyde that are hardest to get right by
reading: the client's stream multiplexer, the agent-control runtime, the
crash-safe macOS release controller, release planning with its version files
and manifests, and the algorithms that must conserve or bound data.

`dafny verify dfyconfig.toml` checks everything.

| module | models |
|---|---|
| `ProjectRoutes` | routes and pre-registered project receivers shared by the reader, openers and drops, one atomic step per lock |
| `AgentAnnounce` | exactly-once, in-order announcement of agent endpoints |
| `OutgoingSeq` | sequence numbers of both send paths against the peer's validator |
| `VoiceSession` | the server voice session machine |
| `AgentControl` | the command and event loop: spawns, authorization, replies, snapshots |
| `AwaitAgents` | the blocking wait on published snapshots |
| `McpFrames` | the length-prefixed frame printer and parser |
| `MacosRelease` | the receipt, its external calls, and crashes after every effect |
| `MacosEvidence` | verify, capture and prepare, up to the receipt `MacosRelease` starts from |
| `SemVer` | version strings and their order |
| `MobileManifest` | the support floor and the merge of one release into a manifest |
| `VersionText` | setting and reading the version in every tracked file, as text |
| `SourceDigest` | the digest of a tree with its versions erased, and the trimming before it |
| `VersionExamples` | the texts on which these tools fail |
| `ReleaseCadence` | plan, stage, land, tag and push over a git DAG |
| `UsageLedger` | the usage audit |
| `StallExport` | byte ranges, kept rows and the output budget of the stall exporter |
| `VoiceAudio` | capture framing, the playback queue and resampling |

Code that changes state step by step is modelled twice: as a class whose methods
follow the code, and as a function or state machine that those methods are proved
against and about which the theorems are stated. Interleavings and crashes are
runs of such a machine. Whatever the outside decides (a tool's exit, a write that
fails, what a file holds, what git or GitHub answers) is a parameter of the step.

Some promises turned out to hold only under a condition, which is proved to be
exact, or shown to be needed by a concrete input:

- An `open_project` that ends between registering its route and building its
  endpoint, because the writer has stopped or the caller drops the future, leaves
  the route behind for good (`ProjectRoutes.OrphansAreAbandonedOpens`, reached in
  `OrphanIsReachable`).
- A stream that is closed and announced again restarts at number 0, which the
  peer rejects (`OutgoingSeq.AcceptedUnlessRestarted`, `ReannouncedStreamIsRejected`;
  it takes a server that reuses a stream name, and this repository's does not); a
  failed write skips a number (`PumpAcceptedUnlessSkipped`,
  `SkippedStreamIsRejected`); a browse stream named like a host root makes a second
  one (`Connection.HostBrowseStart`).
- Audio numbering assumes no 64-bit wrap (`VoiceSession.NextAudioStartsAfterIff`,
  `WrappedAudioOverlaps`).
- A frame whose announced length has no buffer aborts the reader
  (`McpFrames.AbortsIff`).
- Waiting without ids answers only when nothing is active, with two empty lists
  (`AwaitAgents.WithoutIdsTheResultIsEmpty`).
- Leading zeros break the antisymmetry of the version order
  (`SemVer.AntisymmetricIff`), and merges commute only from a base with a stamped
  entry (`MobileManifest.MergesCommuteIff`, `OneOrderOnly`).
- The readers that go line by line, which are used only where `tomllib` is missing
  (tools/check_release_version.py:9-12), do not always read the line that is set
  (`VersionText.PackageReadsBackIff`, `LockReadsBackIff`, and the texts in
  `VersionExamples`); setting a release checks what they say.
- The source digest trims the versioned files before it erases their versions, and
  erases a bump exactly when both are set on the same lines
  (`SourceDigest.DigestIgnoresBumpIff`). A manifest whose own `[package]` header is
  indented and that quotes another manifest's header in a string fails this
  (`VersionExamples.BumpCanChangeDigest`); where an indented header is the only one,
  the bump itself fails.
- Resampling an empty source at another rate yields a value that is not a number
  (`VoiceAudio.ResampledIsNumericIff`).

## Model

| member | source | states |
|---|---|---|
| ProjectRoutes.ProjectReceiversAreExclusive | client/src/runtime.rs:684-759 | Under every interleaving of the reader, openers, cancellations and drops, and the end of the reader, the writer or the client, a project has at most one receiver (in flight, parked, or held); it is routed, and it has seen exactly the frames on the wire since it was registered, in order. |
| ProjectRoutes.ReaderNeverUnroutesAnOpener | client/src/runtime.rs:748-759 | A delete only ever unregisters the route of the receiver it removed itself, never an opener's. |
| ProjectRoutes.OrphansAreAbandonedOpens | client/src/runtime.rs:400-427 | While the client is held, a project's route has no receiver exactly when some earlier step was an `open_project` that ended between registering the route and building its endpoint: the writer had stopped, or the caller dropped the future while it waited. Such a route stays for good. |
| ProjectRoutes.OrphanAfterStepIff | client/src/runtime.rs:422-427 | The same for one step from any state that satisfies the invariant. |
| ProjectRoutes.OrphanIsReachable | client/src/runtime.rs:422-427 | Both causes are reachable: a caller gives up while the writer is up, and an open finds the writer stopped. |
| ProjectRoutes.RollbackIsUnreachable | client/src/runtime.rs:725-732 | The rollback of a failed pre-registration is never taken: the writer outlives the reader, so the registration it waits for succeeds. |
| ProjectRoutes.ExclusionKept | client/src/runtime.rs:684-759 | Each step keeps receivers of one project exclusive. |
| ProjectRoutes.RoutingKept | client/src/runtime.rs:684-759 | Each step keeps every receiver on the route that names its channel. |
| ProjectRoutes.DeleteKeepsItsRoute | client/src/runtime.rs:748-759 | Between taking the parked receiver and unregistering, the route a delete is about to remove is still that receiver's. |
| ProjectRoutes.FramesKept | client/src/runtime.rs:795-804 | Each step keeps, for every routed channel, its frames and the one in flight equal to the wire since registration. |
| ProjectRoutes.UnregisterIsByOwner | client/src/runtime.rs:591-595 | A route disappears only together with the receiver it belongs to. |
| ProjectRoutes.RunKeepsInv | client/src/runtime.rs:684-759 | The ownership and delivery invariant holds after any run. |
| ProjectRoutes.UpsertParks | client/src/runtime.rs:698-736 | A project upserted without a route gets a fresh channel, routed and parked; one that has a route is left alone. |
| ProjectRoutes.OpenTakesParked | client/src/runtime.rs:400-443 | A caller takes over a parked receiver with its route, and it is parked no more. |
| ProjectRoutes.OpenWithoutParked | client/src/runtime.rs:400-443 | With nothing parked a caller gets a fresh channel, or nothing when the project has a route. |
| ProjectRoutes.FrameIsDelivered | client/src/runtime.rs:795-804 | A frame ends on the channel of its project's route, and nowhere without one. |
| ProjectRoutes.RouteIsGivenBack | client/src/runtime.rs:400-443 | A failed or abandoned access and a dropped endpoint give the route back; so does the delete of a parked project. |
| ProjectRoutes.EndsLeave | client/src/runtime.rs:684-759 | What the end of the reader, of the writer and of the last handle leave, and what the rollback would take back. |
| ProjectRoutes.Shared.RegisterRoute | client/src/runtime.rs:684-691 | Refuses a taken stream and otherwise adds exactly that route. |
| ProjectRoutes.Shared.PreRegisterProjectEndpoint | client/src/runtime.rs:698-736 | Pre-registration as code: parked and routed together, or, had the stream not become writable, both taken back. |
| ProjectRoutes.Shared.RemovePendingProjectEndpoint | client/src/runtime.rs:748-759 | A delete touches the route only when it removed a parked receiver. |
| ProjectRoutes.Shared.RouteFor | client/src/runtime.rs:795-804 | The channel the reader's next step sends a frame of this project to, if any. |
| ProjectRoutes.Shared.OpenProject | client/src/runtime.rs:400-443 | Returns the parked receiver when there is one, else a fresh routed channel; a failed first command drops the endpoint and its route. |
| AgentAnnounce.AnnouncedAtMostOnceAndFirst | client/src/runtime.rs:1453-1546 | Each registration of an agent stream is announced at most once, and before any event on its channel. |
| AgentAnnounce.NoEventWithoutAnnouncement | client/src/runtime.rs:1742-1749 | Every event on an agent channel is preceded by that registration's announcement. |
| AgentAnnounce.AnnouncementContents | client/src/runtime.rs:1515-1546 | An announcement says what the inputs fix: the payload itself when the session was known, else the first own frame's session and the latest project change before it. |
| AgentAnnounce.UnannouncedIffStillSilent | client/src/runtime.rs:1453-1546 | While the host channel is open, a registration is unannounced exactly when its session was unknown and no frame has arrived on its stream since. |
| AgentAnnounce.RunKeepsInv | client/src/runtime.rs:1453-1546 | The log and registration invariant holds after any sequence of frames. |
| AgentAnnounce.NewAgentFate | client/src/runtime.rs:1453-1513 | After any input a new agent stops the reader exactly when its stream is taken or cannot be written; otherwise it is announced at once when its session is known and somebody listens, and held back when it is unknown. |
| AgentAnnounce.AgentFrameFate | client/src/runtime.rs:1603-1751 | After any input an agent's frame is dropped without a route, delivered on an announced channel, and otherwise announced with its session and then delivered; with nobody listening the route goes. |
| AgentAnnounce.EndpointDropFate | client/src/runtime.rs:585-589 | Dropping an endpoint takes its route away and nothing else. |
| AgentAnnounce.HostDropFate | client/src/runtime.rs:1515-1546 | Dropping the host channel only ends the announcements. |
| AgentAnnounce.AgreedSession | client/src/runtime.rs:1567-1601 | The session of a bootstrap is the one all its events agree on; a conflict or no candidate gives none. |
| AgentAnnounce.BootstrapSessionId | client/src/runtime.rs:1567-1601 | The loop over the bootstrap's events computes that session. |
| AgentAnnounce.SessionIs | client/src/runtime.rs:1567-1601 | Which session an event names: its own, or the one that all items of a bootstrap give, with at least one that does. |
| AgentAnnounce.Reader.EmitNewAgent | client/src/runtime.rs:1453-1513 | Registers and publishes at once, or defers when the session is unknown; a duplicate stream is an error that changes nothing. |
| AgentAnnounce.Reader.HandleAgentFrame | client/src/runtime.rs:1603-1751 | The deferred announcement goes out before the frame that resolves it. |
| AgentAnnounce.Reader.ProjectChanged | client/src/runtime.rs:1354-1369 | A project change rewrites every deferred announcement of that agent and no other. |
| OutgoingSeq.AcceptedUnlessRestarted | client/src/lib.rs:2180-2268 | While every write succeeds, the peer's per-stream validator accepts a connection's frames exactly when none was sent on a stream that AgentClosed forgot and a later announcement restarted. |
| OutgoingSeq.ReannouncedStreamIsRejected | client/src/lib.rs:1762-1777 | That family is reachable: announced, used, closed, announced again and used again, the second frame repeats number 0. It takes a server that reuses a stream name; this repository's names each one afresh (server/src/host.rs:27196-27199). |
| OutgoingSeq.PumpAcceptedUnlessSkipped | client/src/runtime.rs:887-933 | The write pump never restarts a stream; its frames are accepted exactly when nothing is written on a stream after a failed write there. |
| OutgoingSeq.SkippedStreamIsRejected | client/src/runtime.rs:908-920 | That family is reachable: a stream whose first write fails goes on with number 1. |
| OutgoingSeq.PumpNumbersConsecutively | client/src/runtime.rs:887-933 | Without failed writes every stream is numbered consecutively from its first number, whatever is registered again. |
| OutgoingSeq.UnmisusedRunsAreAccepted | client/src/lib.rs:2180-2268 | A run without restarted or skipped streams is accepted whatever its interleaving. |
| OutgoingSeq.PumpIsARun | client/src/runtime.rs:887-933 | What the pump does to any list of requests is a run of the state machine of those it could perform. |
| OutgoingSeq.WritePump.Run | client/src/runtime.rs:887-933 | The pump's loop writes exactly the frames of that run. |
| OutgoingSeq.SeqValidator.Validate | protocol/src/types.rs:10443-10460 | A number is accepted exactly when it is the stream's next; only then the validator moves. |
| OutgoingSeq.ValidateAll | protocol/src/types.rs:10443-10460 | A whole wire passes the validator exactly when every stream is numbered 0, 1, 2, ... |
| OutgoingSeq.OtherPrefixIsNoHostRoot | protocol/src/types.rs:220-224 | Only /host/ paths with one nonempty segment are host roots. |
| OutgoingSeq.SpawnChildIsNoHostRoot | protocol/src/types.rs:226-233 | A creation stream is never a host root, so spawning keeps exactly one. |
| OutgoingSeq.Connection.HostStream | client/src/lib.rs:2180-2196 | With one host root the search over the keys finds it and its asserts never fire. |
| OutgoingSeq.Connection.SendOn | client/src/lib.rs:388-401 | One frame under the stream's counter, which goes up by one even when the write fails. |
| OutgoingSeq.Connection.SendHostPayload | client/src/lib.rs:2198-2214 | The same on the host root. |
| OutgoingSeq.Connection.SendProjectPayload | client/src/lib.rs:2216-2258 | A project stream is registered at 0 on first use and sent one frame. |
| OutgoingSeq.ProjectPayloadIsARun | client/src/lib.rs:2216-2258 | Those two effects are a run of the machine that never restarts a counter, so the acceptance results cover it. |
| OutgoingSeq.Connection.SpawnOnCreationStream | client/src/lib.rs:403-416 | A fresh child of the host root gets number 0 and a counter at 1. |
| OutgoingSeq.Connection.HostBrowseStart | client/src/lib.rs:459-473 | The browse stream is named by the caller: one host root remains exactly when the name is not one or the write failed. |
| OutgoingSeq.Connection.OnAnnounced | client/src/lib.rs:1508-1557 | An announced instance stream gets its counter at 0, and must not have one. |
| OutgoingSeq.Connection.OnAgentClosed | client/src/lib.rs:1762-1777 | A closed agent's counter is forgotten. |
| OutgoingSeq.BelongsToOwner | client/src/lib.rs:1762-1777 | The streams forgotten are the agent's own, not those of an agent whose name only begins like it. |
| VoiceSession.AcceptedIff | client/src/lib.rs:217-366 | After any frames a further one reaches the application if and only if it deserves to by the events so far, spelled out for each kind of payload: an opening has a valid request and a generation above every accepted one; a session frame is on its session's stream while that session is open; audio is well formed and starts at or after the last accepted audio's end. |
| VoiceSession.AudioAcceptedIff | client/src/lib.rs:217-366 | While no range wraps, a well-formed output frame is accepted if and only if its conversation is open and it starts at or after the end of all audio accepted in it, with 0 before the first. |
| VoiceSession.GenerationsIncrease | client/src/lib.rs:217-366 | Accepted generations strictly increase over any sequence of frames. |
| VoiceSession.EventsBelongToTheOpenSession | client/src/lib.rs:184-366 | Each session event belongs to the session accepted last, before its stop, fatal error or replacement; dictation never yields output audio, voice output or assistant text. |
| VoiceSession.AudioRangesAreDisjoint | client/src/lib.rs:217-366 | Within a session the packet ranges of accepted audio are ordered and disjoint, as long as no range passes the 64-bit end. |
| VoiceSession.NextAudioStartsAfterIff | client/src/lib.rs:217-366 | Exactly: every audio frame acceptable next starts at or after the end of the last one if and only if that end did not wrap. |
| VoiceSession.WrappedAudioOverlaps | client/src/lib.rs:217-366 | The boundary is reachable: an accepted frame ends past the largest number and an accepted later one starts before it. |
| VoiceSession.CurrentIffOpened | client/src/lib.rs:184-215 | After any frames a session frame counts as the active session's exactly when its session and generation are those of an accepted opening with no opening, stop or fatal error since, on that session's stream. |
| VoiceSession.RunAgrees | client/src/lib.rs:217-366 | The state after a run is the one described by the accepted frames. |
| VoiceSession.ServerVoiceState.Accept | client/src/lib.rs:217-366 | A frame is accepted or rejected as a whole; a rejected one leaves the state unchanged. |
| VoiceSession.ServerVoiceState.AcceptAudio | client/src/lib.rs:217-366 | Audio is accepted exactly when well formed, on the active session and at the expected number or later, and moves that number to its end; `AudioAcceptedIff` states it from the history. |
| VoiceSession.Total | protocol/src/types.rs:8938-8947 | The loop over packet lengths computes their sum, which the body length is compared with. |
| AgentControl.AgentsAreFromHistory | dev-driver/src/agent_control.rs:954-1236 | After any run an agent is known exactly when it was announced, and each of its fields is what the last envelope or message that decides it made of it: its turn is completed exactly when a stream end, a cancellation, an assistant or error message or a terminating error came after its last announcement and the last message sent to it. |
| AgentControl.ApplyTouches | dev-driver/src/agent_control.rs:954-1236 | One envelope does to every agent just what it tells about it, and leaves an agent it does not name alone. |
| AgentControl.WaitedForIff | dev-driver/src/agent_control.rs:68-84 | An agent is waited for exactly while, by its history, it is not gone and either types or has a turn that is not done; its status follows. |
| AgentControl.DirectAgentsWereSpawned | dev-driver/src/agent_control.rs:754-791 | Every direct agent is known and was announced to match the one spawn outstanding when it was announced. |
| AgentControl.DirectAgentsBoundedBySpawns | dev-driver/src/agent_control.rs:641-806 | There are never more direct agents than spawns sent. |
| AgentControl.AtMostOneReply | dev-driver/src/agent_control.rs:641-806 | Every spawn command is answered at most once, and not while it is pending. |
| AgentControl.AuthorizationNeverExpires | dev-driver/src/agent_control.rs:316-326 | An authorization checked on any older published snapshot still holds at execution. |
| AgentControl.MatchingAnnouncementsAreAnswered | dev-driver/src/agent_control.rs:754-791 | Over any run the successful replies are, one for one and in order, those to the announcements that matched the spawn outstanding at the time, with a fresh agent's status; the "missing from runtime snapshot" reply never goes out. |
| AgentControl.RepliedAgentsAreAuthorized | dev-driver/src/agent_control.rs:762-790 | An answered agent is authorized by the latest snapshot at every point of an open runtime except between the reply and the publication behind it. |
| AgentControl.ReplyPrecedesItsSnapshot | dev-driver/src/agent_control.rs:762-790 | Right after such a reply the latest snapshot still lacks the new agent, and the publication behind it has it. |
| AgentControl.SpawnIsAnswered | dev-driver/src/agent_control.rs:665-793 | A spawn sent while none is outstanding is answered by the first announcement that fits it, whose agent is direct from the next snapshot on; one that does not fit changes nothing. |
| AgentControl.SpawnIsRefused | dev-driver/src/agent_control.rs:665-691 | A spawn that does not reach the host, or comes while another is outstanding, is refused and leaves the other outstanding. |
| AgentControl.NoSpawnIsForgotten | dev-driver/src/agent_control.rs:641-806 | After any run every spawn command was answered or is the one outstanding. |
| AgentControl.SnapshotsAreNumbered | dev-driver/src/agent_control.rs:845-848 | Snapshots are numbered one after another in the order of publication, up to the largest number. |
| AgentControl.HostGoneIsPublished | dev-driver/src/agent_control.rs:850-860 | When the host goes, the outstanding spawn is refused and the last snapshot says why. |
| AgentControl.ApplyGrows | dev-driver/src/agent_control.rs:954-1236 | Applying an envelope never forgets an agent. |
| AgentControl.RunKeepsInv | dev-driver/src/agent_control.rs:641-806 | The invariant on agents, spawns, replies and snapshots holds after any run of commands and events. |
| AgentControl.Runtime.ApplyEnvelope | dev-driver/src/agent_control.rs:954-1236 | The snapshot's agents after an envelope are those `ApplyTouches` and `AgentsAreFromHistory` describe. |
| AgentControl.Runtime.HandleSpawn | dev-driver/src/agent_control.rs:665-699 | Refuses a second outstanding spawn, reports a failed send, or leaves the spawn pending. |
| AgentControl.Runtime.HandleHostEvent | dev-driver/src/agent_control.rs:754-803 | One host event: it is applied, may answer the pending spawn, and is published. |
| AgentControl.Runtime.Fail | dev-driver/src/agent_control.rs:850-860 | A failure answers the pending spawn and publishes the error. |
| AwaitAgents.NoLostWakeup | dev-driver/src/agent_control.rs:450-487 | A blocked waiter has evaluated the latest snapshot; the next publication or the closing unblocks it. |
| AwaitAgents.LookedButNotSeen | dev-driver/src/agent_control.rs:458-480 | Looking does not count as having seen: a snapshot published before the look still wakes the waiter once. |
| AwaitAgents.SelectionsPartition | dev-driver/src/agent_control.rs:617-639 | Ready and still-thinking partition the watched ids, duplicates and order kept. |
| AwaitAgents.ResultPartitionsRequested | dev-driver/src/agent_control.rs:450-487 | With explicit ids a result accounts for every id, and somebody is ready or nobody is active. |
| AwaitAgents.EvaluateIff | dev-driver/src/agent_control.rs:450-479 | For explicit ids: refused exactly when one is unknown, or, where that is asked, not direct; answered exactly when otherwise some agent is not active; waiting exactly when all are. |
| AwaitAgents.NoIdsAreRefused | dev-driver/src/agent_control.rs:454-456 | An empty list of ids is refused. |
| AwaitAgents.WithoutIdsTheResultIsEmpty | dev-driver/src/agent_control.rs:606-613 | Without ids only active direct agents are watched, so the answer is always two empty lists, given exactly when no direct agent is active. |
| AwaitAgents.WatchedIdsStayAccepted | dev-driver/src/agent_control.rs:593-615 | Over the snapshots of a runtime, ids accepted once are never refused later. |
| AwaitAgents.AwaitAgents | dev-driver/src/agent_control.rs:450-487 | The loop answers at the first snapshot that decides and fails only when the runtime stopped. |
| McpFrames.ReadAllInvertsWriteAll | dev-driver/src/agent_control.rs:1997-2064 | Messages written back to back are read back exactly, and then the stream ends cleanly, whatever bytes their bodies hold. |
| McpFrames.StreamIsRead | dev-driver/src/agent_control.rs:1997-2064 | Messages written back to back are read, whatever comes behind them that is no message. |
| McpFrames.MessageAmongExtras | dev-driver/src/agent_control.rs:1997-2042 | A message is read whatever extra header lines surround its length, with either newline style and blanks around the number. |
| McpFrames.MessageIs | dev-driver/src/agent_control.rs:1997-2042 | What an input that begins with header lines announcing a length comes to: an abort without a buffer, an error when the body is short or is no value, and else just that body. |
| McpFrames.EndsIff | dev-driver/src/agent_control.rs:1997-2042 | Reading ends cleanly on exactly the inputs made of header lines none of which gives a length; a message only comes out of one that announces a length. |
| McpFrames.TruncatedFrameIsNeverAMessage | dev-driver/src/agent_control.rs:1997-2042 | A stream cut inside a message never yields one: it is a clean end exactly when cut before the header's colon, an abort exactly when cut in a body that has no buffer, and an error otherwise. |
| McpFrames.AbortsIff | dev-driver/src/agent_control.rs:2030-2033 | The buffer is sized by the header before any body is seen: over all inputs, reading aborts on exactly those that begin with header lines announcing a length that has no buffer. |
| McpFrames.Decimal | dev-driver/src/agent_control.rs:2048-2050 | The printed length is digits whose value is the length. |
| McpFrames.ReadDecimal | dev-driver/src/agent_control.rs:2020-2027 | The digit loop reads a length, and refuses overflow and any other text. |
| McpFrames.NumeralIff | dev-driver/src/agent_control.rs:2020-2027 | A text reads as a number exactly when it is that number's digits, below 2^64, perhaps after a plus sign. |
| McpFrames.HeaderIs | dev-driver/src/agent_control.rs:2013-2027 | A header line gives a length exactly when it is the key, blanks, a numeral, blanks and a line end. |
| McpFrames.ReadMessage | dev-driver/src/agent_control.rs:1997-2042 | A message is no longer than what was there. |
| McpFrames.Read | dev-driver/src/agent_control.rs:1997-2042 | The header loop, the buffer sized by the header, and the body read compute that. |
| MacosRelease.SubmittedAtMostOnce | tools/macos_release.py:615-675 | Over any operations on one retained receipt with a crash after any effect, no two calls submit the same payload, whatever their attempt number; the bytes Apple is given are the ones the receipt retains; and every external call was logged before it ran. |
| MacosRelease.RetriesAreBounded | tools/macos_release.py:33-35 | Only staple, validate and wait calls are ever retried, at most five times. |
| MacosRelease.CompleteMeansAccepted | tools/macos_release.py:678-770 | Phase "complete", or any upload, means app, server and dmg were each accepted for a submission of the digest retained, after a wait logged as successful, and a staple, a validation and an assessment of the image are logged as successful; at completion the image the receipt names is what they left and passed; the disk image was built once; app and server are the bytes prepared. |
| MacosRelease.PackedMeansAssessed | tools/macos_release.py:702-744 | Over any operations, crashes and changes of the bytes: a disk image that was made, and the updater files, hold a copy of the prepared application as a successful staple left it, and exactly those bytes then passed validation and the gatekeeper, all logged, after app and server had been accepted; a packaged receipt has both. |
| MacosRelease.UploadedBytesAreRetained | tools/macos_release.py:747-785 | An uploaded server archive is the prepared one, an updater file the retained one, and a disk image is what a successful staple made of a copy of the retained, accepted image, and exactly those bytes then passed validation and the gatekeeper; the receipt logs a success of all three. |
| MacosRelease.DurableRecordsGrow | tools/macos_release.py:198-206 | The event log only grows, retained payloads are never replaced, and nothing recorded is taken back. |
| MacosRelease.SubmitAllowed | tools/macos_release.py:659-675 | A submission's started record is durable before the call, and it is made only when none was started. |
| MacosRelease.PackageAllowed | tools/macos_release.py:702-744 | Packaging never builds a disk image over an existing one. |
| MacosRelease.CompleteAllowed | tools/macos_release.py:747-770 | Completion is recorded only after three acceptances and a successful staple, validation and assessment. |
| MacosRelease.RemoteReceipt | tools/macos_release.py:615-652 | A call changes nothing of the receipt but its log, and a success is logged as one. |
| MacosRelease.RemoteWorksIff | tools/macos_release.py:615-652 | A call succeeds exactly when it does so within its attempts after nothing but transient failures. |
| MacosRelease.SubmitSucceedsIff | tools/macos_release.py:659-675 | Submitting succeeds exactly when the retained bytes are whole, the payload was never submitted nor begun to be, the call works and answers an id; it then records that id for the retained bytes and changes nothing else. |
| MacosRelease.PackageSucceedsIff | tools/macos_release.py:702-744 | Packaging succeeds exactly when the bytes are whole, there is no image yet, app and server are or become accepted, the app is stapled, validated and assessed, and every tool works. |
| MacosRelease.PackageLeaves | tools/macos_release.py:702-744 | It leaves the signed image, the updater files instead of any before, and every other file, as the receipt then names them. |
| MacosRelease.CompleteSucceedsIff | tools/macos_release.py:747-770 | Completing succeeds exactly when the receipt is packaged and whole, the three are or become accepted, the image is stapled, validated and assessed, and the tools work. |
| MacosRelease.CompleteLeaves | tools/macos_release.py:747-770 | It leaves outputs that the receipt names: the updater files and the server archive as retained, and the image as it was stapled. |
| MacosRelease.UploadSucceedsIff | tools/macos_release.py:773-785 | Uploading succeeds exactly for a complete receipt with its four outputs as recorded, and sends the image, the updater archive and the server archive. |
| MacosRelease.CheckpointSucceedsIff | tools/macos_release.py:789-793 | A checkpoint needs a receipt that loads, and changes only the checkpoint. |
| MacosRelease.NextKeepsInv | tools/macos_release.py:615-793 | Any prefix of any operation, and any change of the retained bytes, keeps the receipt invariant. |
| MacosRelease.Controller.CallRemote | tools/macos_release.py:615-652 | The attempt loop does exactly the logged attempts up to success, a failure that is not transient, or the limit. |
| MacosRelease.Controller.SubmitPayload | tools/macos_release.py:659-675 | The submission's effects in order. |
| MacosRelease.Controller.AwaitAccepted | tools/macos_release.py:678-691 | Waiting: nothing when accepted, else one logged wait and the acceptance saved. |
| MacosRelease.Controller.RunGatekeeper | tools/macos_release.py:694-699 | Staple, validate and assess, stopping at the first failure. |
| MacosRelease.Controller.PackageRelease | tools/macos_release.py:702-744 | Packaging's effects in order: two acceptances, the app copied, stapled, validated and assessed, the updater and the image made of that copy, the image signed, and all of it saved. |
| MacosRelease.Controller.CompleteRelease | tools/macos_release.py:747-770 | Completion's effects in order: the image copied, stapled, validated and assessed; the updater files, the image and the server archive copied out; their digests saved. |
| MacosEvidence.SignedMeansVerified | tools/macos_release.py:583-612 | In every reachable state a signed receipt stands on a capture that saw the build succeed, both products complete and one source provenance before and after; its payloads are the zips prepared. |
| MacosEvidence.UploadedMeansVerifiedAndAccepted | tools/macos_release.py:524-785 | Over the whole life of one evidence directory, an upload comes from a verified build that is notarized in full, and its bytes are the zips `prepare` wrote, the retained updater files, or the image that a staple of the retained one left and that validation and the gatekeeper passed. |
| MacosEvidence.SubmittedBytesArePrepared | tools/macos_release.py:583-675 | Each payload of one evidence directory is submitted at most once, from a verified build, as the zip `prepare` wrote. |
| MacosEvidence.BarredForGood | tools/macos_release.py:583-612 | A recorded rejection, an unverified quarantine or an interrupted prepare is permanent: no receipt is ever signed afterwards. |
| MacosEvidence.EvidenceIsKept | tools/macos_release.py:524-580 | No operation overwrites a quarantine or a pre-build record or takes a rejection back. |
| MacosEvidence.SignsIff | tools/macos_release.py:583-612 | A step signs a receipt exactly when it is a prepare that gets as far, with no rejection and no retained directory before, over a verified quarantine of this very source and metadata, whose archives are as recorded, and whose tools all work. |
| MacosEvidence.PrepareRejectsIff | tools/macos_release.py:583-612 | A prepare that runs to its end leaves a rejection exactly when it did not go through or there was one. |
| MacosEvidence.CaptureVerifiesIff | tools/macos_release.py:524-580 | A finished capture verifies the quarantine exactly when both products are there with their executables, the build succeeded, and the source is what it was before the build. |
| MacosEvidence.CaptureLeaves | tools/macos_release.py:524-580 | A capture that runs to its end leaves the quarantine captured when a product could not be archived, verified when all is well, and otherwise rejected. |
| MacosEvidence.CaptureRecords | tools/macos_release.py:524-580 | What it records besides: the outcome, each product it got to with its archive and executable, the record from before the build, the metadata, and the source unless it rejects; every archive recorded is on disk. |
| MacosEvidence.VerifyRecords | tools/macos_release.py:1066-1120 | A verify records what was true before the build, once. |
| MacosEvidence.Directories.Capture | tools/macos_release.py:524-580 | The capture's effects in order, and whether it verified. |
| MacosEvidence.Directories.Prepare | tools/macos_release.py:583-612 | The prepare's effects in order; any failure, even after the receipt is saved, records a rejection. |
| SemVer.CompareIsPrecedence | tools/check_mobile_web_manifest.py:83-110 | The comparison is section 11 of SemVer 2.0.0 for unbounded prerelease lists, except that two spellings of one version each compare as greater. |
| SemVer.PrecedenceLaws | tools/check_mobile_web_manifest.py:83-110 | The order law by law, as section 11 of Semantic Versioning 2.0.0 states them: the first number that differs, prerelease before release, the first identifier that differs, numbers before texts, and a prefix before what it begins. |
| SemVer.VersionTextIs | tools/check_mobile_web_manifest.py:69-80 | Three numbers and any identifiers make a release version, whose key is read off those parts. |
| SemVer.IdentifierIff | tools/check_mobile_web_manifest.py:16-18 | Identifiers are ASCII digits, letters and dashes, and one of digits alone stands for its number. |
| SemVer.NumbersAreInDigitOrder | tools/check_mobile_web_manifest.py:71-79 | Numbers are in the order of their first digits that differ, once zeros make them equally long. |
| SemVer.ReleaseIsText | tools/check_mobile_web_manifest.py:15-18 | Every release version is such a text. |
| SemVer.AntisymmetricIff | tools/check_mobile_web_manifest.py:83-110 | It is antisymmetric exactly on pairs that are equal or differ in precedence. |
| SemVer.CanonicalTotalOrder | tools/check_mobile_web_manifest.py:83-110 | On versions without leading zeros it is a total order. |
| SemVer.CanonicalKeysAreDistinct | tools/check_mobile_web_manifest.py:69-80 | Without leading zeros a version has one spelling. |
| SemVer.LeadingZeroBreaksAntisymmetry | tools/check_mobile_web_manifest.py:69-110 | Every version and its spelling with one more leading zero each compare as the greater. |
| SemVer.PrecedesIsStrictTotal | tools/check_mobile_web_manifest.py:69-80 | Precedence itself is a strict total order on parsed versions. |
| SemVer.ComparesNormalized | tools/check_mobile_web_manifest.py:83-110 | The comparison answers exactly when both texts normalize, and then for the normalized ones. |
| SemVer.NormalizedIsFixed | tools/check_mobile_web_manifest.py:54-66 | Normalizing leaves exactly the release versions alone. |
| SemVer.NormalizesIff | tools/check_mobile_web_manifest.py:54-66 | A text normalizes exactly when it is a release version, with a `v` before it or not, between blanks, and then to that version. |
| SemVer.SpacesAre | tools/check_mobile_web_manifest.py:55-60 | Which characters count as blanks. |
| SemVer.CanonicalTextIff | tools/set_release_version.py:14-20 | A version is strict exactly when none of its numbers has a leading zero. |
| MobileManifest.MergeSucceedsIff | tools/check_mobile_web_manifest.py:311-331 | A merge succeeds exactly for a well-formed entry of a readable version into an unserved base whose policy reads, admits the version, and would leave no unstamped entry allowed. |
| MobileManifest.MergeableIff | tools/check_mobile_web_manifest.py:311-331 | What makes a base mergeable, in full: its minimum, its blocked list and the floor read, it does not block the version and lets it through, and each of its other entries fits. |
| MobileManifest.SourceEntryIs | tools/check_mobile_web_manifest.py:311-331 | The source must list the release under its normalized version, with the expected protocol, in a well-formed entry. |
| MobileManifest.MergeKeepsPolicy | tools/check_mobile_web_manifest.py:311-331 | A successful merge keeps every other entry and the blocked list, never lowers minSupported, leaves every allowed entry stamped and the target allowed under the expected protocol. |
| MobileManifest.MergesCommuteIff | tools/check_mobile_web_manifest.py:311-331 | When two merges of distinct versions succeed in one order, they succeed in the other, with the same manifest, exactly if the one that now comes last is covered by the other or by a stamped entry and is not already there unstamped. |
| MobileManifest.MergesFromValidatedBaseCommute | tools/check_mobile_web_manifest.py:311-331 | From a validated base with a stamped entry two distinct merges succeed or fail together in both orders, and agree. |
| MobileManifest.UnstampedBaseTakesOneOrder | tools/check_mobile_web_manifest.py:311-331 | From a base with no stamped entry only the older first can succeed. |
| MobileManifest.OneOrderOnly | tools/check_mobile_web_manifest.py:311-331 | Such a base exists: a literal manifest from which 1.0.0 and then 2.0.0 merge, and not the other way round. |
| MobileManifest.MergeIsIdempotent | tools/check_mobile_web_manifest.py:311-331 | Merging the same entry again changes nothing. |
| MobileManifest.FloorIgnoresOrder | tools/check_mobile_web_manifest.py:273-285 | The support floor does not depend on the order of the versions object, nor its spelling without leading zeros. |
| MobileManifest.FloorIs | tools/check_mobile_web_manifest.py:273-285 | A version is at least the floor exactly when it is at least the self-heal floor and at least some stamped version, if there is one. |
| MobileManifest.EnforcedMinIs | tools/check_mobile_web_manifest.py:298-304 | Enforcing leaves the larger of the old minimum and the floor. |
| MobileManifest.Document.EnforceMinSupportedFloor | tools/check_mobile_web_manifest.py:298-304 | The dictionary is changed in place only when the minimum is missing or below the floor. |
| MobileManifest.Document.MergeTargetEntry | tools/check_mobile_web_manifest.py:311-331 | The merge works on a fresh copy and leaves the base document alone. |
| VersionText.PackageLens | tools/set_release_version.py:56-75 | Setting a Cargo.toml version: the last setting wins, setting what is there changes nothing, and only the quoted text of one line changes. |
| VersionText.PackageVersionIs | tools/set_release_version.py:56-75 | The line set is the first version line between the first package header and the next section. |
| VersionText.LockLens | tools/set_release_version.py:85-115 | The same laws for the Cargo.lock, whose chunks are split and joined without loss. |
| VersionText.LockSetsIff | tools/set_release_version.py:85-115 | A Cargo.lock can be set exactly when each wanted package is there once and has a version line. |
| VersionText.LockLinesAre | tools/set_release_version.py:85-115 | The lines set are the first version line of each wanted package. |
| VersionText.PackageReadsBackIff | tools/check_release_version.py:73-85 | Without a TOML library: the line reader gives back what was set exactly when it reads the line the writer changes, or one that said so already. |
| VersionText.ReadAtIs | tools/check_release_version.py:73-85 | The line read is the first that reads as a version after the first package header and before the next section. |
| VersionText.LockReadsBackIff | tools/check_release_version.py:95-128 | Without a TOML library: the lock reader gives back what was set for every package exactly when each line it answers from is one the writer changes, or said so already. |
| VersionText.PackagesAre | tools/check_release_version.py:95-116 | The packages read are one for each package header, in order, each with the last name and the last version before the next header. |
| VersionText.VersionLinesIff | tools/check_release_version.py:118-128 | Reading fails exactly when a wanted package has no version. |
| VersionText.VersionLinesAre | tools/check_release_version.py:118-128 | Of several packages of one name the last counts. |
| VersionText.ReleaseLens | tools/set_release_version.py:118-140 | After a release version is set every reader says it, and any later setting does what it would have done to the files before, whatever reads the Cargo files and however the JSON files were laid out. |
| VersionText.ReleaseSetsIff | tools/set_release_version.py:118-140 | A release is set exactly when the tag is one, every file has its version where the writer looks and the readers find one before, and each reader says the new one after. |
| VersionText.SetsAllIff | tools/set_release_version.py:118-133 | Every file can be set exactly when each JSON file has its version fields, each Cargo.toml its line and the Cargo.lock its packages. |
| VersionText.NormalizesTagIff | tools/set_release_version.py:14-33 | A tag is taken exactly when it is a `v` and a strict version. |
| VersionText.LineLaws | tools/set_release_version.py:67-72 | The three lens laws on one version line. |
| VersionText.KindIs | tools/set_release_version.py:56-72 | What each kind of line looks like, character by character. |
| VersionText.JsonLens | tools/set_release_version.py:36-41 | The laws for a JSON version field, which keeps its place among the object's fields. |
| VersionText.PackageLockLens | tools/set_release_version.py:44-53 | The laws for both version fields of the package lock. |
| VersionText.JsonTextLens | tools/set_release_version.py:36-41 | Rewriting a JSON file as text: what is written reads as the version, the last setting wins, and the file stays as it was exactly when it said so in the writer's own layout. |
| VersionText.PackageLockTextLens | tools/set_release_version.py:44-53 | The same for the package lock. |
| VersionText.VersionLineIsSeen | tools/check_release_version.py:56-64 | The reader finds in a version line just the text the writer replaces. |
| VersionText.SeenIs | tools/check_release_version.py:56-64 | What the line readers make of a line: headers between blanks, and the text between the first two quotes behind the equals sign. |
| VersionText.WriteCargoLock | tools/set_release_version.py:85-115 | The chunk loop computes that setting, or fails on a duplicate, a missing version or a missing package. |
| VersionText.ReadCargoPackageVersion | tools/check_release_version.py:73-85 | The line loop computes what the reader answers. |
| VersionText.ReadPackages | tools/check_release_version.py:95-116 | The lock reader's loop collects the packages it saw. |
| VersionText.WorkingTree.SetVersion | tools/set_release_version.py:118-140 | The files are rewritten one by one; on success all of them are set, and an invalid tag changes nothing. |
| SourceDigest.DigestIgnoresBumpIff | tools/release_cadence.py:44-66 | Of a tree that has one, the source digest, which trims every versioned file, erases versions and keeps modes, is left alone by a bump exactly when in every Cargo file each line the bump sets is set again after the trimming or said the version already, or the trimmed file cannot be set. |
| SourceDigest.DigestIgnoresBumps | tools/release_cadence.py:44-66 | So no bump changes the digest, nor whether there is one, when the first line of each Cargo file is of the kind it has after trimming. |
| SourceDigest.DigestsAgreeIff | tools/release_cadence.py:44-66 | Two trees have one digest exactly when, trimmed as the digest sees them, a bump to one version makes them the same tree, modes included. |
| SourceDigest.PackageErasedIff | tools/release_cadence.py:53-55 | For one Cargo.toml: setting, trimming and setting a second version leaves what trimming and setting it would have left exactly when both settings are on one line of the file, the first one said so already, or the trimmed file cannot be set. |
| SourceDigest.LockErasedIff | tools/release_cadence.py:53-55 | The same for a Cargo.lock, for each line set. |
| SourceDigest.FallbackIgnoresMargins | tools/check_release_version.py:73-128 | The line readers find the same in a trimmed file, whatever is in it. |
| SourceDigest.TrimIsStrip | tools/release_cadence.py:23-29 | Trimming a file line by line is stripping the one string that it is and adding a newline. |
| VersionExamples.IndentedVersionIsReadInstead | tools/check_release_version.py:73-85 | A Cargo.toml with an indented version before the real one: the version set is not the one read. |
| VersionExamples.IndentedLockVersionIsReadInstead | tools/check_release_version.py:95-128 | The same in a Cargo.lock, where the last version line of a package is read and the first is set. |
| VersionExamples.BumpCanChangeDigest | tools/release_cadence.py:44-66 | The condition can fail: a tree whose manifest has an indented header and quotes another manifest in a string is bumped to 1.0.0 with success, and its digest changes, whatever its other files and for any readers that find the versions there. |
| VersionExamples.LineReadersReadThem | tools/check_release_version.py:73-128 | The line readers find those versions. |
| ReleaseCadence.ReleasesAreContainedAndOrdered | tools/release_cadence.py:69-267 | Over any run of planning, staging, landing, tagging and pushing from any history, with other pushes, tags, resets and crashes between, and pushes that fail, succeed, or are taken with their answer lost: every pushed release is an ancestor of the server's main and keeps the source chosen for it, landings keep main's source, beta numbers rise within a core, and stable cores rise. |
| ReleaseCadence.LandingsAreGood | tools/release_cadence.py:200-223 | Over any run, and whatever the worktrees hold by then, a landing that passes the checks contains the release, keeps main's source, and a promotion releases the source of the beta it names. |
| ReleaseCadence.NightlyIs | tools/release_cadence.py:69-130 | A nightly whose latest merged beta is main's own source retries it, from its own commit, exactly while that beta is a draft or not in the catalog, and skips exactly when it is out. |
| ReleaseCadence.NewBetaIs | tools/release_cadence.py:69-130 | Otherwise it plans a new beta of main's own source in the cycle main is in, numbered one more than the largest there; none when main is on another prerelease or the tag is taken. |
| ReleaseCadence.PromotionIs | tools/release_cadence.py:83-105 | A beta can be promoted exactly when it is merged, out as a prerelease, of main's core, above every merged stable, and its stable is not there; from its own commit, and main goes on with the next patch. |
| ReleaseCadence.StaleMainPlansNothing | tools/release_cadence.py:73-75 | Nothing is planned while main is not where the server last showed it. |
| ReleaseCadence.LatestIsLast | tools/release_cadence.py:78-80 | No merged beta comes after the latest one. |
| ReleaseCadence.CoresAreInOrder | tools/release_cadence.py:78-79 | Cores are in order of major, then minor, then patch. |
| ReleaseCadence.StepKeepsInv | tools/release_cadence.py:69-267 | Each step keeps the containment and ordering invariant. |
| ReleaseCadence.MayLandIff | tools/release_cadence.py:200-223 | When worktrees may be landed, whatever they hold: main has not moved, the candidate is the one staged and the plan's source under its tag, and the landing contains both; for a promotion it is main's own source under the next version. |
| ReleaseCadence.ExecutesIff | tools/release_cadence.py:232-267 | A plan carried out with nobody in between releases exactly when it can and the push gets through, and then the server has the new commits and the tag; otherwise it keeps what it had. |
| ReleaseCadence.OthersMove | tools/release_cadence.py:232-267 | Pushes and tags from elsewhere, fetches, resets and new clones change just what they name. |
| ReleaseCadence.Clone.Execute | tools/release_cadence.py:232-267 | The whole command on one clone is a run of those steps; it succeeds exactly when the plan can be released and the push is answered, and leaves the state `ExecutesIff` describes, with one release more unless the server did not take the push. |
| ReleaseCadence.Clone.Publish | tools/release_cadence.py:258-267 | Fetch, check, tag and atomic push, with the same outcomes. |
| UsageLedger.AuditedIff | tools/repair-overlapping-usage.py:61-124 | A ledger passes the audit exactly when its records are admissible, spelled out by position: whose they are, fresh ids, rising sequence, scope, and for visible answers a reported request under an id not used before, or, for metadata, one of an answer before it and not changed; and when its requests, generations, optional counters and sums are the ones expected. |
| UsageLedger.RepairsIff | tools/repair-overlapping-usage.py:70-111 | The records are let through exactly when all are admissible. |
| UsageLedger.RepairedIs | tools/repair-overlapping-usage.py:84-114 | A hidden record, somebody else's message, a typing change and any other event are copied as they are; a known cumulative counter becomes the sum over the requests reported so far, each once. |
| UsageLedger.GenerationsAreRises | tools/repair-overlapping-usage.py:80-83 | The generations counted are the places where typing went from off to on. |
| UsageLedger.RepairWrites | tools/repair-overlapping-usage.py:61-124 | Each record with a known cumulative counter is given exactly the sum over the distinct requests up to it, and nothing else in the ledger changes. |
| UsageLedger.RequestsAre | tools/repair-overlapping-usage.py:103-121 | Those requests are exactly the ones the records account for, one per id. |
| UsageLedger.RepairedCountersGrow | tools/repair-overlapping-usage.py:61-124 | Repaired counters never go down along the ledger. |
| UsageLedger.RepairIsIdempotent | tools/repair-overlapping-usage.py:61-124 | Repairing a repaired ledger changes nothing. |
| UsageLedger.SumOfConcat | tools/repair-overlapping-usage.py:36-41 | Field sums with absent values are a homomorphism from lists to a commutative monoid. |
| UsageLedger.AddIsMonoid | tools/repair-overlapping-usage.py:36-41 | Addition with absent values is associative and commutative, with "nothing known" as unit. |
| UsageLedger.AggregateIsTotal | tools/repair-overlapping-usage.py:137-141 | The aggregate of the ledgers' totals is the total over all their requests. |
| UsageLedger.PromptOfTotal | tools/repair-overlapping-usage.py:44-46 | Prompt tokens of a total are the sum of the prompt tokens of its parts. |
| UsageLedger.Recompute | tools/repair-overlapping-usage.py:61-124 | The loop computes that repair; it fails exactly when `AuditedIff` says the ledger does not pass. |
| StallExport.RangesAreWithin | tools/export-desktop-stalls.py:139-143 | A file's ranges are within it, disjoint, in order, end at its end, and start at its head when more than 64 KiB are allowed; a file gives up bytes only beyond its own 8 MiB or what is left of the input's. |
| StallExport.LeftIs | tools/export-desktop-stalls.py:132-139 | What is left for the next file is 32 MiB less what was read of those before. |
| StallExport.ReadAll | tools/export-desktop-stalls.py:132-145 | Read and omitted bytes make up the files, within the global input limit. |
| StallExport.NothingOmittedIff | tools/export-desktop-stalls.py:132-143 | Nothing is omitted exactly when every file is within its limit and all within the input's. |
| StallExport.HandedLinesAreWhole | tools/export-desktop-stalls.py:144-149 | Every line handed on is a whole line of the file, between line feeds, carriage returns or both. |
| StallExport.HandedIff | tools/export-desktop-stalls.py:144-149 | Of the whole lines of a file that lie in a range, exactly those are lost that start at a cut before the range or reach one after it. |
| StallExport.FullFileIsHanded | tools/export-desktop-stalls.py:144-149 | Every line of a file read in full is handed on. |
| StallExport.BucketKeepsLargest | tools/export-desktop-stalls.py:126-128 | A category's heap holds, in order, as many rows as its quota allows, each greater than every row dropped. |
| StallExport.QuotasAre | tools/export-desktop-stalls.py:12-13 | How many rows of each category stay. |
| StallExport.AtMost1024Stay | tools/export-desktop-stalls.py:12-13 | No export has more than 1024 rows. |
| StallExport.LineIsRow | tools/export-desktop-stalls.py:126-127 | Every recognized line is a row of its category, numbered in the order read. |
| StallExport.WrittenIffRoom | tools/export-desktop-stalls.py:153-157 | A row is written exactly when the newer rows written leave room for it. |
| StallExport.FitChooses | tools/export-desktop-stalls.py:153-157 | The output is some of the rows in order and fits its budget. |
| StallExport.ExportIsSound | tools/export-desktop-stalls.py:151-157 | Whatever was read, the export is sorted, fits the budget, and every row stands for a line read. |
| StallExport.ExportedIff | tools/export-desktop-stalls.py:126-157 | From the lines read to the file written: a row is exported exactly when fewer rows of its category than the quota are newer and the newer exported rows leave room for it. |
| StallExport.Exporter.Process | tools/export-desktop-stalls.py:126-128 | One recognized line is numbered, counted and pushed, and the least row over quota goes. |
| StallExport.Emit | tools/export-desktop-stalls.py:153-157 | The newest-first loop computes that output and counts what it left out. |
| VoiceAudio.FramesAreTheSamples | mobile-frontend/voice-media.js:130-141 | The frames one after another are the captured samples up to the remainder, 960 each, 20000 microseconds apart. |
| VoiceAudio.FramingIgnoresBlocks | mobile-frontend/voice-media.js:130-141 | How the samples were cut into blocks does not show in the frames. |
| VoiceAudio.Capture.OnBlock | mobile-frontend/voice-media.js:130-141 | The capture handler's loop keeps that cut. |
| VoiceAudio.PlaybackConserves | mobile-frontend/voice-playback-worklet.js:2-5 | The queue never exceeds ten packets; samples are heard at most once and in order; every pushed sample was heard, was lost to an overflow or a flush, or is pending. |
| VoiceAudio.Playback.Push | mobile-frontend/voice-playback-worklet.js:2 | A push appends, drops from the front over ten, and reports every packet dropped. |
| VoiceAudio.Playback.Flush | mobile-frontend/voice-playback-worklet.js:2 | A flush drops everything pending and touches nothing else; `PlaybackConserves` counts it as lost. |
| VoiceAudio.Playback.Process | mobile-frontend/voice-playback-worklet.js:3-6 | A quantum is filled with the pending samples in order and then silence. |
| VoiceAudio.ResampledIsWithin | mobile-frontend/voice-codec-worker.js:13-19 | Every output is a number within the range of a nonempty source, the first is the source's first, and the length is its duration to the nearest sample. |
| VoiceAudio.ResampledIsNumericIff | mobile-frontend/voice-codec-worker.js:13-19 | Every output is a number exactly when there is a source or nothing to resample. |
| VoiceAudio.StraightLineIsKept | mobile-frontend/voice-codec-worker.js:13-19 | A straight line stays that line up to the last sample, so the neighbours are mixed by the right weights. |
| VoiceAudio.PositionIsWithin | mobile-frontend/voice-codec-worker.js:13-19 | Every position read lies within the source. |
| VoiceAudio.Resample | mobile-frontend/voice-codec-worker.js:13-19 | The output loop computes the interpolation. |

## Left out

- Sockets, subprocesses, git and gh invocation, Apple tools, GitHub HTTP parsing, file permissions and signatures: each is a step with an arbitrary result.
- Payload decoding per frame kind in the client: the parse-and-forward branches that change no route, counter, pending endpoint or voice state are one generic frame.
- Bounded channels: they are unbounded sequences, so backpressure and liveness are not modelled.
- Terminal and agent endpoint drops, which unregister a route the same way as project endpoints.
- Compaction bookkeeping, logical session ids and replayed debug events of the agent-control runtime, and timeouts of a spawn.
- JSON in the MCP bodies: values are encoded and decoded by an inverse pair; in the headers blanks other than ASCII ones are not modelled.
- Restoring an older receipt artifact, which starts another lineage for submit-once, and two operations at once, or a change of the bytes in the middle of one, on one retained directory.
- Removing the disk image behind the controller's back, and exceptions outside the kinds that `main` catches other than as a crash.
- Finding the receipt's run, archive structure, the source checks of `context`, `assemble`, `finalize` and the draft release lookups.
- TOML and JSON syntax: a TOML library is any function of the text, a JSON library any inverse pair; matches that run over a line break, and line separators other than the newline in the version files, are not modelled.
- Wrong JSON types in a manifest, which are errors of their own, and the checks of paths and integrity strings inside an entry, which are one given predicate.
- Limits of Python on the number of digits of an integer.
- Starting a workflow run, for a new release or for a retry, and the verification of a beta before its promotion.
- Git objects other than commits, and removing worktrees after a landing; a force push of the server's main or a moved tag.
- The sqlite archives of the usage audit, and counters of a wrong type.
- Recognizing, cleaning and redacting log lines, and a log that changes while it is read: a line is already a row of some category; the heap is its rows in order.
- Floating-point rounding in the audio code: samples are exact numbers; the codec itself.
- Tables, coverage ledgers, frontend bridges, packaging scripts and icon checks, which would only add easy members.
- VoiceSession.AudioRangesAreDisjoint: stated for runs in which no packet range passes the 64-bit end; NextAudioStartsAfterIff gives the exact boundary.
- AgentAnnounce.UnannouncedIffStillSilent: stated while the host channel is open, because a closed one drops announcements.
- ReleaseCadence.ReleasesAreContainedAndOrdered: one clone releases at a time, as the concurrency group of .github/workflows/release-cadence.yml has it; a second one's releases count as pushes and tags from elsewhere, and are in no ledger.
- VersionText.PackageReadsBackIff: the line reader, which is used where `tomllib` is missing, because a TOML library is any function of the text; `ReleaseLens` covers that branch.
- VersionText.LockReadsBackIff: the line reader of the lock, for the same reason.
- VersionText.ReadCargoPackageVersion: the branch without `tomllib`, for the same reason.
- VersionText.ReadPackages: the branch without `tomllib`, for the same reason.
- SourceDigest.DigestIgnoresBumpIff: for trees that have a digest; where there is none, only `DigestIgnoresBumps` says that a bump makes none.
