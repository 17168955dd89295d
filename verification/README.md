# Verified model of the Go MCP library

A Dafny model of a Go library for the Model Context Protocol (revision 2024-11-05): its client, its
server, the handshake between them, the two transports and the parts of the "everything" server that
produce progress and nested calls. `dafny verify dfyconfig.toml` checks the whole project.

## How the model is built

Goroutines become a step machine. One step is one atomic action of one goroutine, and the label of a
step settles every choice that Go leaves open: which goroutine moves, what arrives, whether a write
succeeds, whether a call times out or is cancelled. Theorems speak of every labelled run, so of every
interleaving.

- `Session` is one server session: messages received, the task spawned for each of them, requests the
  tasks send back to the client, and everything written. Received and sent messages are histories; a
  task is named by the position of the message it serves.
- `Client` is the client's table of pending calls and its reader, which stands still while it holds a
  response that nobody has taken yet. `ClientObject` is the same in the source's form: a class whose
  handler families update fields in place, each proved against the step function.
- `Server` has many sessions, the progress-token map and dispatch, both as a step function with one
  flat lookup on the method and as a class that runs the eight handler families in the order of the
  source. The class is proved equal to the function.
- `Protocol` joins one client to one session. A message is named by its position in the sender's
  history; it may be delivered later, in any order, at most once, or never. The safety theorems
  therefore hold over a transport that loses and reorders messages.
- `Negotiation`, `Handshake`: options, capabilities, the two checks, and when a handshake succeeds.
- `Initialization` is one session with a client of any kind: what sets its flag, and when that is safe.
- `Liveness`, `LivenessInvariant`, `Termination`, `Evaluation`: the reliable fragment, the amount of
  work left, and the value that a nested call must return.
- `ServerTheorems`, `Isolation`, `Notices`, `Progress`, `ProgressOrder`, `ProgressInFull`: many sessions
  on one server. `Network` puts a client of this library at the other end of every session, and shows
  that what was proved of one client and one session holds of each of them.
- `Fanout` adds one fan-out loop as a goroutine of that machine: it pulls an update and walks the
  registry, and between any two offers every other goroutine may move and sessions may come and go.
  Channels between a loop and a session are unbuffered, so an offer waits for the listen loop.
  `Subscriptions` says which of the offered resource updates become notices.
- `Everything`, `Pagination`: the everything server. `StdIO`, `SseClient`, `Acknowledge`: transports.

A handler that a user supplies is a function from its request and from what it has seen so far
(reports made, callbacks answered or failed) to its next action, so it is arbitrary and
deterministic, and it may report progress or call the client any number of times. The client's sampling and roots handlers are functions of their parameters. UUIDs are
identifiers not used before. JSON text is not modelled: a message carries decoded parameters and a
flag that says whether decoding them succeeds. The protocol version is a parameter of
each peer, so that mismatches are covered; in the library both are `2024-11-05`.

## What was found

- The package documentation promises strict matching of interface pairs (`pkg/mcp/doc.go:95-113`).
  The code matches a pair only if its family is required, and never looks at the progress pair. The
  model follows the code. `ProgressPairIsNotChecked` and `UnrequiredPairIsNotChecked` show handshakes
  that go through without a documented pair, and `Negotiate` says exactly what is missing.
- A resource-list cursor that the server never issued can make the page slice panic
  (`pkg/servers/everything/resource.go:55-63`). `ListResources` gives the exact condition, and
  `ForeignCursorCanPanic` an input. Issued cursors are always safe (`Collect`).
- The session is marked initialized on the client's word alone. With this client the handshake is
  safe nevertheless (`HandshakeIsSafe`), but not with every client: `AnyClientCanBeInitialized` is a
  run in which a client that never asked to initialize is initialized, for every configuration.
  `WordIsSafeIffAccepted` gives the exact condition: after the word arrives, the session stays safe if
  and only if the server had accepted a request to initialize before.
- The StdIO round trip needs its condition in full: `FramingRoundTrip` is an equivalence, so a message
  that is empty, contains a line feed, ends in a carriage return or is too long for the scanner is
  always damaged or lost, together with what follows it in the last case.
- In the SSE client a second report on the session channel blocks, because `StartSession` listens for
  one report only. After an endpoint event that names no session, nothing is forwarded any more, but one
  more endpoint event can still replace the message URL before the loop blocks (`FinalUrl`).

## Model

| member | source | states |
|---|---|---|
| Negotiation.ApplyOptions | pkg/mcp/client.go:188-212 | the parts a constructor ends up with are those whose last option is not nil |
| Negotiation.CheckServerIsOrder | pkg/mcp/client.go:777-831 | the client's check accepts if and only if every required feature is offered |
| Negotiation.CheckClientIsOrder | pkg/mcp/server.go:810-846 | the server's check accepts if and only if every required feature is offered |
| Negotiation.Negotiate | pkg/mcp/server.go:230-294 | for all option lists, both checks accept if and only if the interface pairs with a capability field match; after an accepted handshake the documented pairs match exactly when the unchecked ones do |
| Negotiation.ProgressPairIsNotChecked | pkg/mcp/doc.go:112 | a concrete pair of option lists whose handshake succeeds although the documented progress pair does not match |
| Negotiation.UnrequiredPairIsNotChecked | pkg/mcp/doc.go:108 | a concrete pair of option lists whose handshake succeeds although the pair of a family nobody requires does not match |
| Handshake.AgreementIsInterfaces | pkg/mcp/server.go:240-291 | two peers built from option lists agree if and only if versions are equal and the interface pairs match |
| Handshake.InitializesIffAgreement | pkg/mcp/client.go:715-775 | some run reaches an initialized session with nothing going on if and only if the two configurations agree |
| ProtocolInvariant.InvNext | pkg/mcp/server.go:482-551 | every step of client, session or transport keeps the joint invariant that ties in-flight messages to both ends |
| ProtocolInvariant.AcceptedMeansAgreement | pkg/mcp/client.go:742-772 | a response that lets `initialize` succeed exists only if versions are equal and both sides cover each other's requirements |
| Session.InitializeReplyIs | pkg/mcp/server.go:792-853 | the answer to `initialize` is a success exactly for an equal version and covered requirements, naming what the server offers, and else an invalid-parameters error |
| Client.JudgeAccepts | pkg/mcp/client.go:738-772 | the client accepts exactly an error-free result with its own version and with its requirements covered; a refusal is an invalid-parameters error |
| ProtocolTheorems.HandshakeIsSafe | pkg/mcp/server.go:1176-1181 | in every run an initialized session means agreement, and no guarded handler gets past its first check without it |
| Initialization.InitializedOnClientsWord | pkg/mcp/server.go:1176-1181 | in every run with any client a session is initialized if and only if it has processed the notice, and no guarded handler gets past its first check before |
| Initialization.WordIsSafeIffAccepted | pkg/mcp/server.go:792-853 | after such a notice, with any id and parameters, arrives in any run, every continuation is initialized only if accepted, if and only if a request to initialize had been accepted before |
| Initialization.AcceptedIsCovered | pkg/mcp/server.go:800-846 | an accepted request carries an equal version and capabilities that cover what the server requires |
| Initialization.AnyClientCanBeInitialized | pkg/mcp/server.go:1176-1181 | a run, for every configuration and every such notice, that initializes a client which never asked to initialize |
| ProtocolTheorems.ResponsesBelongToCalls | pkg/mcp/client.go:1090-1158 | a returned response was made by the one task that received exactly that call's id, method and parameters, after callbacks answered by this client |
| ProtocolTheorems.AnswersBelongToCallbacks | pkg/mcp/server.go:1312-1341 | an answer taken by a server's callback is the client's one reply to exactly the request sent under that callback's id, and carries what the client's own handler gives for its method and parameters |
| ProtocolInvariant.HandedOverReply | pkg/mcp/server.go:1194-1202 | what `handleResult` hands to a waiting callback is the client's reply to the very request of that callback, id included |
| Protocol.ReaderAsksHandlers | pkg/mcp/client.go:932-1029 | the client answers exactly pings and well-formed requests it has a handler for, with what that handler gives for the request's own parameters, or an internal error if it fails |
| Protocol.ReadFailsWhen | pkg/mcp/client.go:897-1029 | the exact messages that the client's reader acknowledges with an error |
| ProtocolTheorems.RequiredIsRouted | pkg/mcp/server.go:556-734 | under agreement every well-formed request of a family the client requires reaches a configured handler |
| ProtocolTheorems.RequiredIsAnsweredOnce | pkg/mcp/client.go:945-1029 | a well-formed required sampling or roots request read after initialization is answered in every continuation of the run, by exactly one message, with what the client's own handler gives for it |
| ProtocolTheorems.NegotiatedMeansServed | pkg/mcp/server.go:855-1212 | a well-formed required request dispatched after initialization is never dropped in any continuation, and gets at most one response |
| Network.SeenIsRun | pkg/mcp/server.go:320-336 | what one session and its client see of a run of a server with many sessions and clients is a run of one client against one session |
| Network.EveryHandshakeIsSafe | pkg/mcp/server.go:1214-1219 | on every session of a server, initialized or past a guarded handler's check only in agreement with that session's client |
| Network.EveryResponseBelongsToItsCall | pkg/mcp/client.go:1090-1158 | on every session, a returned response was made by that session for exactly that call of its client |
| Network.EveryAnswerBelongsToItsCallback | pkg/mcp/server.go:1312-1341 | on every session, a callback takes its own client's reply to exactly that callback |
| Network.NetIsServerRun | pkg/mcp/server.go:320-336 | a run of the network is, for the server, a run of the server alone |
| Session.InvNext | pkg/mcp/server.go:788-1341 | every step of a session keeps tasks, callbacks and the sent history consistent, whatever the client does |
| Session.RepliesConserved | pkg/mcp/server.go:1270-1310 | per id, responses written plus live tasks never exceed requests received, and each response has exactly one of result and error |
| Session.NextExtends | pkg/mcp/server.go:482-551 | histories only grow, the flag is never cleared, an ended task or callback never changes again |
| Session.NextMoves | pkg/mcp/server.go:788-1341 | the full effect of any step on any task and any callback |
| Session.NoticeIffSubscribed | pkg/mcp/server.go:747-773 | the listen loop writes the notification that announces an update if and only if the last subscribe or unsubscribe that the run completed for that resource was a subscribe |
| Session.ChangesAreSettings | pkg/mcp/server.go:1041-1085 | the settings of a session are exactly the subscribes and unsubscribes that its run begins once initialized, each for its own resource |
| Session.EmitAnnounces | pkg/mcp/server.go:747-773 | every update passed on becomes one message with the method of its kind and the members of the update |
| Session.RoutedByPart | pkg/mcp/server.go:556-734 | a request starts a handler exactly when the part that serves it is configured and it decodes |
| Session.RoutedWithoutPart | pkg/mcp/server.go:539-716 | the messages that need no part, and those that are ignored |
| Subscriptions.NoticeIffSubscribedEverywhere | pkg/mcp/server.go:747-773 | the same on every session of a server, read off the steps of the run, and handling the update changes no other session |
| Subscriptions.ResourceNoticesAreExact | pkg/mcp/server.go:374-391 | if no write fails, a session's resource-updated notices are exactly those of the updates, in order, that it handled while the run's last setting for the resource was a subscribe |
| ServerTheorems.RepliesConservedEverywhere | pkg/mcp/server.go:482-537 | reply conservation on every session of a server with any number of sessions |
| Messages.ResponseRoundTrip | pkg/mcp/server.go:1270-1310 | a receiver reads out of a response what the sender put in, and it carries exactly one of result and error |
| Messages.WireForm | pkg/mcp/server.go:1245-1310 | requests, notifications and responses have the members that version 2.0 of JSON-RPC gives them |
| Client.InvNext | pkg/mcp/client.go:847-1158 | every step of the client keeps its table of calls and its sent history consistent, whatever it reads |
| Client.OutcomesAreExclusive | pkg/mcp/client.go:1113-1158 | per id at most one of a returned response and a cancelled notice, the notice naming that id and only after a successful send, and an ended call never ends again |
| Client.HeardByItsWatcher | pkg/mcp/client.go:1031-1088 | a notification is passed on exactly when the client has the part that watches for it and its parameters decode |
| ClientObjects.ClientObject.BeginRequest | pkg/mcp/client.go:1113-1131 | registers a call under a fresh id and sends its request, as the step function says |
| ClientObjects.ClientObject.HandleMsg | pkg/mcp/client.go:897-930 | the five handler families in sequence equal one flat lookup on the method, with the error handed back to the transport |
| ClientObjects.ClientObject.FinishInitialize | pkg/mcp/client.go:738-775 | the end of `initialize` in place equals the step function, with its two stray error replies, and succeeds exactly when the response is accepted and the last write works |
| Server.ServerObject.HandleMsg | pkg/mcp/server.go:482-537 | the eight families in sequence equal one flat lookup, with the verdict the transport gets back |
| Server.ServerObject.ListenProgress | pkg/mcp/server.go:430-452 | one turn of the progress loop takes the oldest report to the session its token leads to, or nowhere |
| Server.ServerObject.HandlePromptMessages | pkg/mcp/server.go:556-584 | dispatches exactly its own methods, storing the progress token before the task starts |
| Server.ServerObject.HandleResourceMessages | pkg/mcp/server.go:586-638 | dispatches exactly its own methods; subscriptions store no token |
| Server.ServerObject.HandleToolMessages | pkg/mcp/server.go:640-668 | dispatches exactly its own methods, storing the progress token before the task starts |
| Server.ServerObject.HandleCompletionMessages | pkg/mcp/server.go:670-689 | dispatches by the kind of reference and ignores other kinds |
| Server.DispatchReceives | pkg/mcp/server.go:482-537 | dispatch of a message that is let in is exactly the receiving step of its session |
| ServerTheorems.DispatchIsLocal | pkg/mcp/server.go:482-537 | at most one task, on the message's own session; a wrong version or unknown session changes nothing; a refused message starts nothing |
| ServerTheorems.LiveFollowsRun | pkg/mcp/server.go:320-336 | a session is in the registry exactly when the last start or stop of it in the run was a start |
| ServerTheorems.ReportsAreRouted | pkg/mcp/server.go:430-452 | a report's token always leads to the session of the last step of the run that dispatched a request with it; that session takes the report once its listen loop is free if it is live, else nothing changes |
| ServerTheorems.StoredIsLastDispatched | pkg/mcp/server.go:567-580 | what is stored under a token after a run is the session of the last request dispatched with that token |
| Isolation.SessionsDoNotInterfere | pkg/mcp/server.go:320-336 | deleting all steps of other sessions from any run leaves a run with the same state, messages and tasks for one session |
| Isolation.SideBySide | pkg/mcp/server.go:454-537 | the simulation behind it, for any two servers that look the same from one session |
| Fanout.ErasedIsServerRun | pkg/mcp/server.go:338-428 | a run with the loop, its pulls left out and its offers read as takes, is a run of the server |
| Fanout.EveryUpdateOfferedOnce | pkg/mcp/server.go:338-428 | in every run, with any steps between two offers, a live session has been offered every update pulled since it came in, once each and in order, less the one in hand if its turn is still to come |
| Fanout.StandingSessionMissesNothing | pkg/mcp/server.go:374-391 | while a session stays, that history keeps its beginning, so every further update reaches it exactly once |
| Fanout.PulledIsRun | pkg/mcp/server.go:338-428 | the updates that a loop has pulled are those of its pulling steps, in order |
| Fanout.NoticesFollowUpdates | pkg/mcp/server.go:747-773 | what a session writes on the topic are the notifications that announce those updates, in order and none twice, and all of them if no write fails and subscriptions do not filter |
| Progress.CallLongRunningOperation | pkg/servers/everything/tool.go:164-208 | the loop's reports are 1, 2, ... with constant total, as many as `total` covers when it completes, as the handler function says, and it stops early only when a report is not taken |
| Progress.TruncateRounds | pkg/servers/everything/tool.go:177 | the conversion of the number of steps rounds toward zero |
| Progress.CountCovers | pkg/servers/everything/tool.go:177 | the number of reports is the one n with n <= steps < n + 1, none for a negative number, and n itself for n steps |
| ProgressOrder.ProgressIsInOrder | pkg/servers/everything/tool.go:175-197 | in every run of a server with all its sessions and every run of a client that reads its session in order, the values its listener is given for a token used once strictly increase from 1, never exceed the total, and carry one total, even with drops |
| ProgressOrder.HeardExec | pkg/mcp/client.go:1063-1073 | whatever the client does, what its listener has been given keeps the order of what the session has sent |
| ProgressInFull.AllMarksAreSent | pkg/servers/everything/tool.go:175-208 | once a long-running call is answered and nothing is on its way, a session that lost nothing has sent exactly the values 1 to the number of steps |
| ProgressInFull.ProgressIsHeardInFull | pkg/mcp/client.go:1063-1073 | and a client that has read all of that session's messages has given its listener exactly those values, in order |
| Liveness.QuietIsLive | pkg/mcp/server.go:493-551 | an initialized session with nothing going on satisfies the invariant of the reliable fragment |
| LivenessInvariant.LiveNext | pkg/mcp/client.go:847-1158 | every reliable step keeps the whereabouts of every open call and callback |
| Termination.LowerNext | pkg/mcp/server.go:493-551 | every internal step lowers a natural-number measure of the work left |
| Termination.NestedCallsFinish | pkg/mcp/server.go:1312-1341 | after any reliable run internal steps lower the measure, an open call leaves one enabled, and a closed call returned what direct evaluation gives |
| Termination.EveryCallReturns | pkg/mcp/client.go:1120-1158 | left to themselves the peers stop within the measure, and when they stop every call has returned the directly evaluated value |
| Termination.OpenCallsCanFinish | pkg/mcp/server.go:1194-1202 | from every state of the reliable fragment internal steps can close every open call |
| Evaluation.RequiredIsAnswerable | pkg/mcp/client.go:985-1029 | under agreement a well-formed request in a family the server requires gets an answer from the client |
| Everything.EverythingIsWellBehaved | pkg/servers/everything/tool.go:88-111 | the everything server's tools end within a bound and ask only what an agreeing client answers |
| Everything.EverythingReportsOwnToken | pkg/servers/everything/tool.go:175-197 | the tools report only under the token of their own request, and never in the place of a request |
| Everything.LongRunningIsInOrder | pkg/servers/everything/tool.go:164-208 | in every run of the everything server and of a client, what is heard of a long-running call under a token of its own strictly increases within its steps |
| Everything.LongRunningIsHeardInFull | pkg/servers/everything/tool.go:164-208 | if nothing is lost and the call is over, exactly the values 1 to the number of steps are heard |
| Everything.SampleLLMReturnsClientsAnswer | pkg/servers/everything/tool.go:222-288 | a call of the sampling tool evaluates to the text that the client's own model gives for the prompt in its context, or to an internal error |
| Everything.EchoReturnsMessage | pkg/servers/everything/tool.go:113-135 | a call of the echo tool evaluates to its message, and a tool that does not exist to an internal error |
| Everything.EverySampleIsReturned | pkg/servers/everything/tool.go:264-287 | from the very start: after any handshake and any reliable run, once the peers come to rest every sampling call has returned the text of the calling client's own model |
| Pagination.PrintParse | pkg/servers/everything/resource.go:55-68 | printing an index and parsing it gives the index back |
| Pagination.AtoiReads | pkg/servers/everything/resource.go:55-58 | a cursor is read as a signed decimal number with leading zeros, up to the ends of 64 bits |
| Pagination.AtoiOfOther | pkg/servers/everything/resource.go:55-58 | anything else, with or without a sign, is read as 0 |
| Pagination.ListResources | pkg/servers/everything/resource.go:48-74 | the page and next cursor for every cursor, and the exact condition under which the slice panics |
| Pagination.ForeignCursorCanPanic | pkg/servers/everything/resource.go:55-63 | the page at cursor 101 of any list of one hundred resources is a panic |
| Pagination.Collect | pkg/servers/everything/resource.go:48-74 | following issued cursors ends, never panics, and the pages concatenate to the list |
| StdIO.Transport.SendAll | pkg/mcp/stdio.go:102-127 | messages are written whole and in order up to the first write that fails, and of that one what the writer took |
| StdIO.Start | pkg/mcp/stdio.go:58-93 | the read loop forwards exactly the non-empty decodable lines within the scanner's limit |
| StdIO.LinesAreRecovered | pkg/mcp/stdio.go:58-88 | of any lines, none too long, exactly those that are not empty and decode are forwarded, by position and in order; a bad line loses no other |
| StdIO.LineLimit | pkg/mcp/stdio.go:59 | a line of 65535 characters is forwarded and one of 65536 is not |
| StdIO.FramingRoundTrip | pkg/mcp/stdio.go:58-127 | what is recovered from what was written is the messages in order if and only if every message is framable and decodes |
| StdIO.WholeMessagesSurvive | pkg/mcp/stdio.go:58-127 | whatever follows in the stream, such as part of a failed write, the framable messages written whole before are recovered first, in order |
| SseClient.Client.ListenMessages | pkg/mcp/sse.go:333-404 | what is forwarded are, by position, the first of all messages that the events after the opening one carry before a read error, in order, under its session id, with the message URL after every stream |
| SseClient.OpeningAt | pkg/mcp/sse.go:346-378 | the event that opens the session is exactly the first one not ignored, if it names a non-empty session id |
| SseClient.FinalUrlAt | pkg/mcp/sse.go:359-377 | the message URL is that of the first endpoint event, or of one more if the first names no session |
| SseClient.FinalUrlStays | pkg/mcp/sse.go:359-377 | without an endpoint event that counts the message URL stays |
| Acknowledge.AcknowledgedOnceBeforeNext | pkg/mcp/mcp.go:30-32 | a handler loop's takes and acknowledgements, read off the steps of the run, alternate, one acknowledgement for each message, and a reader's next message is taken only after all its earlier ones are acknowledged |
| Acknowledge.LoopTakesWhatWasSent | pkg/mcp/stdio.go:60-88 | among any other readers, the handler loop takes from a StdIO reader the first of the messages its peer sent, in order, none left out and none twice |

## Left out

- Shutdown: `server.stop`, `Client.Close` and the transports' `Close` race with senders and with receives of zero values, so runs stop before them.
- Remote cancellation: a cancelled notice starts a task that changes nothing, because the source stores requests under one key type and looks them up under another, so the lookup never hits.
- Liveness with timeouts or cancels: a pending entry is never removed and hand-over is unbuffered, so a late response can hold the client's reader for good; such runs are covered by the safety theorems only.
- Liveness of the first messages: the registration of a session and the initialized flag race with the messages that need them; only safety and the possibility of success are stated there.
- Completion requests that name a prompt or resource server which is not configured: the source has no guard, and the model lets no such task begin.
- JSON text, JSON schemas, HTTP, the event-stream parser, UUID generation, timers and contexts: foreign code, present only as choices of the step labels.
- Error data and log lines: an error carries its code and message only, and errors reported on a side channel are not kept.
- `SSEServer.Send` and the write lock: what a session writes is a history, and the writers behind it are not modelled.
- The client's stop on a message for another session: the joint machine delivers to a client only what its own session wrote.
- A fan-out or progress loop blocked for good on a session whose listen loop has ended before it was deleted: an offer to it may simply never happen; only order and content are claimed.
- A user handler that notices the end of its session's context and then replies with an error: handlers are functions of what they have reported and been answered, so no run has that reply.
- User handlers see the answer of a callback but not its JSON-RPC id, and the nested-call theorems assume a bound on the events of one call.
- Session.NoticeIffSubscribed: a subscribe or unsubscribe task and its change of the subscription set are one atomic step.
- Pagination.Collect: list length plus page size must fit in 64 bits, beyond which the addition in the source wraps around.
- StdIO.FramingRoundTrip: text is a sequence of characters, where the source counts bytes.
- Fanout.EveryUpdateOfferedOnce: a loop is modelled on values, as steps, because other goroutines move between any two of its actions; its own updates in place are not represented.
- StdIO.Transport.SendAll: a cancelled write, whose goroutine may go on writing after `Send` has returned, is not modelled.
- StdIO.Start: the wait for the acknowledgement between two lines is in Acknowledge.LoopTakesWhatWasSent.
- ProgressOrder.ProgressIsInOrder: a token that several calls share is not covered, because the source gives no order between them; nor is a handler that sends the client progress notices of its own in the place of requests.
- Isolation.SessionsDoNotInterfere: tokens must belong to one session each; with a shared token the source sends reports to whoever stored it last.
- The everything server's own set of subscribers, the simulated updates, and reading resources by URI: the set has no counts and is shared by all sessions, and URIs count from 1 while reads index from 0, so there is no round trip to prove.
- Texts of tool results other than echo and sampling, and the parameters of a sampling request other than its prompt in context: not represented.
- Prompts, the option setters beyond their effect on the parts, the filesystem server and the example program: little state of their own.
