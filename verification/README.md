# A verified model of the SaltyRTC client signalling

SaltyRTC lets two clients find each other through a signalling server and agree on a task over an end-to-end
encrypted channel. This project models the client of `saltyrtc-client-rs`: the initiator and the responder state
machines, the sequence numbers and nonces they use, the negotiation of a task, the loops that drive them, and the
byte formats. It proves what every step keeps, what every run satisfies, and what two clients reach together.

Each role comes in two forms. `InitiatorProtocol` and `ResponderProtocol` are functions from a state and a message to
the next state and an outcome. `InitiatorObject` and `ResponderObject` are classes whose methods update fields in
place and loop where the code loops; every method is proved equal to its function, state and outcome, errors included.
The invariants and theorems are about the functions, and so hold of the classes.

Reading order: `Basics`, `Csn`, `Messages`, `Tasks`, `Negotiation` (the vocabulary); `Contexts`, `InitiatorProtocol`,
`ResponderProtocol` (the state machines); `Progression`, `RunShape`, `Ledger` (relations between states and along
runs); `InitiatorInvariants`, `InitiatorSelection`, `InitiatorRuns`, `ResponderInvariants`, `ResponderRuns` (one client
on its own); `Learning`, `Agreement` (two clients and a hostile relay); `Progress`, `Opening`, `Meeting`, `Session` (two
clients, a server and an in-order relay); `Reachability` (the second inside the first); `InternalErrors` (which internal
errors do occur); `Randomness` (what is asked of the random source); `TaskTraffic`, `Conversation` (what the tasks say);
`SharedState`, `InitiatorObject`, `ResponderObject`, `Drivers`, `SendAll`, `Wire` (the imperative side).

How the surroundings enter:

- Encryption is symbolic. A sealed box names the two secrets whose shared key protects it, its nonce and its plaintext;
  it opens with that key and that nonce only. Keys are distinct where a theorem says so.
- Randomness is a tape: the n-th peer context a client creates takes the n-th draw (key pair, cookie, start sequence).
- The iteration order of a hash map or set is a parameter of every step that iterates one, and so is whether the chosen
  task accepts its data. All theorems hold for every order.
- A run of one client stops at the first error, as both drivers do. A handler that reports an error still leaves a state
  behind, and the functions say which. In the system with the hostile relay a move that ends in an error is skipped,
  which covers the runs in which that client stops.
- The bytes of a value that a task sends may happen to read as a signalling message; what they read as is part of the
  input. Agreement asks of the initiator's task that they do not read as an auth message that repeats the responder's
  cookie and names another task.
- The server of `Meeting` sends each client a hello, its auth message and, to the one that connected first, news of the
  other. It relays in order, so that what a client sends queues up behind what the server has already sent.

Where comments and code disagree the model follows the code: an incoming sequence number must be greater than the last
one, not greater by one (`src/protocol/mod.rs:171`, `:191-198`).

## Model

The first 52 rows are the main results. The classes and loops that work in place follow, then the steps that lead to
the main results.

| member | source | states |
|---|---|---|
| Agreement.ClientsAgree | src/protocol/mod.rs:1977-2047 | Against a relay that forges, replays, reorders and readdresses, as long as the initiator's task does not imitate an auth message for another task: once the responder is in the task phase, both clients hold the same task name, each other's session keys, cookies and address, if and only if its handshake state still says so, and always if it was created with a token |
| Agreement.ChosenIsTheResponder | src/protocol/mod.rs:1378-1518 | Whoever the initiator chose is the expected responder, in a context that shares keys and cookies with it while it is current |
| Reachability.AgreementIsReached | src/protocol/mod.rs:1378-2047 | Against the hostile relay, from the initial state, there are runs in which both clients are in the task phase and agree: sessions over an honest server are runs of that system |
| Reachability.AgreementIsLost | src/protocol/mod.rs:1788-1824 | In every world with trusted keys such a run goes on with a new-initiator message the relay can forge, after which the responder is in the task phase and no longer agrees |
| Reachability.AgreementCanBeLost | src/protocol/mod.rs:1788-1824 | A concrete world, run and forged message that show it |
| Reachability.ImitationIsPossible | src/protocol/mod.rs:1464-2047 | Why agreement asks that: whenever a task is shared and the responder knows two, a run from creation leads to a point where a value of the initiator's task that reads as an auth message for the other one, overtaking the real one, leaves both in the task phase with different tasks |
| Session.ExchangeEnds | src/protocol/mod.rs:1741-2059 | From two created clients, a server that greets both and an in-order relay, whichever client connects first, with a token or trusted keys, any list of responders and any draws, under every schedule: at most ten deliveries find a message, and once nothing is on its way both are in the task phase and agree, or both have reported that no task is shared, or the initiator has dropped the responder unheard, or one has refused the other's first message; each of the last two has its cause in the order of the list or in a start sequence, and no other error occurs |
| Session.BoundIsExact | src/protocol/mod.rs:1520-1563 | Every schedule of such a session ends well if and only if the path is not crowded (the responder connects after the initiator, keys are trusted, or at most 252 responders are listed) and no draw that either client can open with starts at 2^32 - 1 |
| Session.CompletionIsExact | src/protocol/mod.rs:1288-1518 | On every such path, crowded or not, some schedule ends well if and only if each client has a draw to open with that does not start at 2^32 - 1 |
| Conversation.SessionsTalk | src/lib.rs:908-976 | From creation on, however the two tasks send and the relay delivers in order, while the handshake is still going on and after it, in both directions everything that went out is accepted and read in order, once each; the rest is on its way, behind whatever is left of the handshake |
| Conversation.MessageIsHeard | src/protocol/mod.rs:370-440 | Each task message is then heard as it was sent if and only if it survives encoding, for every key order |
| InitiatorRuns.NoncesAreFresh | src/protocol/mod.rs:772-802 | Over every run whose draws repeat no cookie, no nonce is issued twice and no accepted nonce repeats, across drops, keys, auth and task messages and across the winner's move to the chosen slot |
| ResponderRuns.NoncesAreFresh | src/protocol/mod.rs:1881-1925 | Over every run whose draws repeat no cookie, no nonce is issued twice and no accepted nonce repeats, across replaced contexts |
| Randomness.InitiatorCanBeFresh | src/protocol/mod.rs:1255-1285 | There is one random source with which all runs of an initiator meet this and so reuse nothing |
| Randomness.ResponderCanBeFresh | src/protocol/mod.rs:1847-1877 | There is one with which all runs of a responder do, up to 2^32 - 2 messages |
| Randomness.RepeatedDrawReusesNonce | src/protocol/mod.rs:1788-1824 | Without it the property fails: if the first two draws repeat cookie and start, a responder that is told of a new initiator reuses the nonce of its first message |
| InitiatorInvariants.NextFollows | src/protocol/mod.rs:272-321 | Every successful step of the initiator keeps the invariant, moves contexts only along legal edges, emits well-shaped actions with new nonces, and, unless its task imitates an auth message for another task, puts on the wire only boxes it may author |
| ResponderInvariants.NextFollows | src/protocol/mod.rs:272-321 | The same as for the initiator: invariant, legal edges or a fresh context, well-shaped actions, new nonces, authored boxes, at most one token |
| InitiatorInvariants.CrashesOnlyByCause | src/protocol/mod.rs:1063-1135 | An internal error occurs exactly in the cases listed, each read off the state and the message beforehand; all other crash branches are dead |
| ResponderInvariants.CrashesOnlyByCause | src/protocol/mod.rs:1694-1722 | An internal error occurs exactly in the cases listed; all other crash branches are dead |
| InternalErrors.SpentTokenStopsInitiator | src/protocol/mod.rs:1093-1107 | One of them occurs: when an initiator with a token is told of two responders and one has used the token, whatever the other says first is an internal error |
| InternalErrors.NewsStopsResponder | src/protocol/mod.rs:460-511 | And one on the other side: a run reaches agreement, a new-initiator message resets the context behind the running task, and from there the next message of the peer, and everything the task sends, is an internal error |
| InitiatorRuns.RunsStayValid | src/protocol/mod.rs:937-950 | After every run that has not failed the invariant holds: phases, keys and states go together, map keys are the contexts' addresses, numbers are unique |
| ResponderRuns.RunsStayValid | src/protocol/mod.rs:1601-1607 | After every run that has not failed the invariant holds; in particular the session key is known exactly from "key received" on |
| InitiatorInvariants.PathIsCleaned | src/protocol/mod.rs:1520-1596 | Joining evicts nobody, or exactly one context with the least counter among those in the initial state, never the newcomer; with a trusted key nobody |
| InitiatorRuns.UntrustedPath | src/protocol/mod.rs:1548-1563 | After every run of an initiator created with a token at most 252 responders are registered and at most one is past the initial state |
| InitiatorRuns.TrustedPath | src/protocol/mod.rs:1535-1544 | After every run of an initiator created with a trusted key at most 254 responders are registered, and every context and the chosen responder carry that key |
| InitiatorSelection.ServerAuthConserves | src/protocol/mod.rs:1164-1212 | The listed addresses split exactly into retained contexts and drop-responder replies; min(n, 252) are retained without a trusted key, all n with one |
| InitiatorSelection.TaskPhaseIsWon | src/protocol/mod.rs:1378-1518 | The only step into the task phase is an admitted auth message, opened with the session keys of a responder awaiting it, that repeats our cookie; the task is the first of ours that it lists, and the step does exactly what winning means |
| InitiatorSelection.DropsNameTheOthers | src/protocol/mod.rs:1464-1478 | The drops of a winning step name every other registered responder exactly once and never the winner |
| InitiatorSelection.OnlyTheChosenIsHeard | src/protocol/mod.rs:967-1001 | In the task phase a message from any other responder leaves the state unchanged |
| InitiatorRuns.TokenIsSingleUse | src/protocol/mod.rs:1288-1319 | Over every run at most one token is accepted, and none by an initiator that trusts a key |
| ResponderRuns.TokenIsSingleUse | src/protocol/mod.rs:1752-1775 | Over every run at most one token message is sent, and none by a responder created with a trusted key |
| InitiatorRuns.RunsAreShaped | src/lib.rs:624-658 | Every run's action log keeps the driver's promises |
| ResponderRuns.RunsAreShaped | src/lib.rs:624-658 | Every run's action log keeps the driver's promises |
| Drivers.InitiatorActionsFit | src/lib.rs:624-658 | No valid initiator makes either loop fail, and the handshake loop ends exactly when the task phase begins |
| Drivers.ResponderActionsFit | src/lib.rs:774-805 | The same for the responder |
| InitiatorRuns.DeadBranches | src/protocol/types.rs:154-180 | After every run that has not failed: addresses are in range and equal their map keys, the server's cookie is known when it is unwrapped, the phase setter succeeds where it is called |
| ResponderRuns.DeadBranches | src/protocol/types.rs:154-180 | After every run that has not failed: the identity is in the responder range, the server's cookie is known when it is unwrapped, the phase setter succeeds where it is called |
| SendAllFuture.SendAll.Poll | src/send_all.rs:71-92 | One poll loses, repeats and reorders nothing, terminates, completes only when everything is accepted and flushed, loses at most the item in hand on an error, and completes at once if everything is ready |
| SendAllFuture.SendAll.PollRepeatedly | src/send_all.rs:71-92 | The same over any number of polls with any pattern of readiness |
| TaskTraffic.MessageComesBack | src/protocol/mod.rs:370-440 | For every key order, a task message is read back as it was sent if and only if it is an application or close message or a map of a supported type of its own |
| Negotiation.ResponderBuilderIsExact | src/protocol/messages.rs:427-453 | The responder's builder succeeds exactly on non-empty, duplicate-free task lists |
| Negotiation.ProposalFits | src/protocol/mod.rs:1397-1418 | Every auth message the responder can build passes all of the initiator's structural checks |
| Negotiation.ChoiceFits | src/protocol/mod.rs:1987-2025 | Every answer of the initiator passes the responder's checks, and the responder finds a task of that name |
| Negotiation.PassingDataExact | src/protocol/mod.rs:1410-1418 | Of the proposals that pass, exactly the duplicate-free ones carry data for their tasks and no others |
| CombinedSequence.IncrementTimesAdds | src/protocol/csn.rs:64-75 | k increments from a start give start + k, or fail exactly when that leaves 48 bits |
| Wire.NonceRoundTrips | src/protocol/nonce.rs:45-77 | Nonces and 24-byte strings correspond one to one; other lengths are refused |
| Wire.IdRoundTrips | src/protocol/send_error.rs:25-50 | Send-error ids and 8-byte strings correspond one to one; other lengths are refused |
| Wire.IdIsTailOfNonce | src/protocol/send_error.rs:25-50 | The send-error id of a message is the last 8 bytes of its nonce |
| Wire.FrameRoundTrips | src/boxes.rs:168-183 | A message survives the wire exactly if its payload is not empty |
| Wire.BytesRoundTrip | src/boxes.rs:168-183 | Exactly the byte strings longer than a nonce are messages, and writing one gives the bytes back |
| CombinedSequence.Counter.Increment | src/protocol/csn.rs:64-75 | In place: the counter moves to the successor and returns it, or stays as it was and fails |
| Tasks.TaskList.AddTask | src/tasks.rs:119-125 | A task is refused exactly when its name is taken; otherwise appended; lists built this way stay duplicate-free |
| Negotiation.ChooseSharedTask | src/tasks.rs:135-142 | The early-return loop computes that choice |
| Negotiation.InitiatorAuthBuilder.SetTask | src/protocol/messages.rs:364-370 | The task set last is the only one with data |
| Negotiation.InitiatorAuthBuilder.Build | src/protocol/messages.rs:373-382 | Fails exactly without a task, otherwise hands over the initiator's answer for it |
| Negotiation.ResponderAuthBuilder.AddTasks | src/protocol/messages.rs:413-423 | The in-place loop appends all names in order and merges all data entries |
| Negotiation.ResponderAuthBuilder.Build | src/protocol/messages.rs:427-453 | Fails exactly without tasks or with a repeated name, otherwise hands over what was collected |
| TaskTraffic.Transform | src/lib.rs:908-976 | The outgoing mapping, with its vectors filled pair by pair, builds the value described |
| SharedObject.SharedState.SetSignalingState | src/protocol/mod.rs:892-905 | The checked setter succeeds exactly on the same phase or a legal transition, and otherwise changes nothing |
| SharedObject.SharedState.SetServerState | src/protocol/context.rs:73-78 | The unchecked setter, only ever called along a forward edge of the server handshake |
| SharedObject.SharedState.SendDropResponder | src/protocol/mod.rs:772-802 | New state and outcome of sending a drop-responder message |
| SharedObject.SharedState.HandleServerHello | src/protocol/mod.rs:608-682 | New state and outcome of a server-hello message for either role |
| SharedObject.SharedState.FinishServerHandshake | src/protocol/mod.rs:744-748 | New state and outcome at the end of the server handshake |
| SharedObject.SharedState.TaskMessageActions | src/protocol/mod.rs:381-440 | The loop that collects the map, refusing it on the first key that is no string, and the cases that follow |
| InitiatorObject.SetHandshakeState | src/protocol/context.rs:237-241 | The unchecked setter, only ever called along a forward edge of a responder's handshake |
| InitiatorObject.CheckProposal | src/protocol/mod.rs:1397-1418 | The chain of checks and its loop accept exactly the proposals that pass |
| InitiatorObject.InitiatorSignaling.constructor | src/protocol/mod.rs:1255-1285 | A new initiator is in the initial state and valid |
| InitiatorObject.InitiatorSignaling.ValidateNonce | src/protocol/mod.rs:98-105 | Validation in four parts that update state as they go equals the validation function, including what a rejected message leaves behind |
| InitiatorObject.InitiatorSignaling.FindOldestInactive | src/protocol/mod.rs:1573-1577 | Whatever the iteration order, the loop finds the one oldest context in its initial state |
| InitiatorObject.InitiatorSignaling.DropOldestInactiveResponder | src/protocol/mod.rs:1569-1596 | New map, server link and outcome of an eviction |
| InitiatorObject.InitiatorSignaling.ProcessNewResponder | src/protocol/mod.rs:1520-1564 | New state and outcome of registering a responder, replacing any earlier context |
| InitiatorObject.InitiatorSignaling.HandleServerAuth | src/protocol/mod.rs:1164-1212 | The registering loop, with its early exit, equals registering the whole list |
| InitiatorObject.InitiatorSignaling.HandleToken | src/protocol/mod.rs:1288-1319 | New state and outcome of a token message |
| InitiatorObject.InitiatorSignaling.HandleKey | src/protocol/mod.rs:1323-1375 | New state and outcome of a key message, through both setter calls |
| InitiatorObject.InitiatorSignaling.DropOthers | src/protocol/mod.rs:1464-1472 | The drop loop, with its early exit, equals dropping the whole list |
| InitiatorObject.InitiatorSignaling.SelectWinner | src/protocol/mod.rs:1464-1518 | New state and outcome of choosing a responder, through both setter calls |
| InitiatorObject.InitiatorSignaling.HandleAuth | src/protocol/mod.rs:1378-1518 | New state and outcome of an auth message, on every path |
| InitiatorObject.InitiatorSignaling.HandleMessage | src/protocol/mod.rs:272-367 | A whole step in place equals the step function and keeps the object valid unless it reports an error |
| InitiatorObject.InitiatorSignaling.EncodeTaskMessage | src/protocol/mod.rs:480-511 | Sending for the task in place equals the step function and keeps the object valid |
| InitiatorObject.InitiatorSignaling.EncodeCloseMessage | src/protocol/mod.rs:516-557 | Sending a close message in place equals the step function and keeps the object valid |
| ResponderObject.ResponderSignaling.constructor | src/protocol/mod.rs:1847-1877 | A new responder is in the initial state and valid |
| ResponderObject.ResponderSignaling.SetHandshakeState | src/protocol/context.rs:151-155 | The unchecked setter, only ever called along a forward edge of the initiator's handshake |
| ResponderObject.ResponderSignaling.ValidateNonce | src/protocol/mod.rs:98-105 | Validation in four parts equals the validation function |
| ResponderObject.ResponderSignaling.StartPeerHandshake | src/protocol/mod.rs:1750-1778 | New state and outcome of sending token and key, the token being given up first |
| ResponderObject.ResponderSignaling.HandleServerAuth | src/protocol/mod.rs:1741-1786 | New state and outcome of a server-auth message |
| ResponderObject.ResponderSignaling.HandleNewInitiator | src/protocol/mod.rs:1788-1824 | New state and outcome of starting over with a new initiator |
| ResponderObject.ResponderSignaling.HandleKey | src/protocol/mod.rs:1927-1974 | New state and outcome of a key message, through both setter calls and the builder |
| ResponderObject.ResponderSignaling.HandleAuth | src/protocol/mod.rs:1977-2047 | New state and outcome of an auth message, on every path |
| ResponderObject.ResponderSignaling.HandleMessage | src/protocol/mod.rs:272-367 | A whole step in place equals the step function and keeps the object valid unless it reports an error |
| ResponderObject.ResponderSignaling.EncodeTaskMessage | src/protocol/mod.rs:480-511 | Sending for the task in place equals the step function and keeps the object valid |
| ResponderObject.ResponderSignaling.EncodeCloseMessage | src/protocol/mod.rs:516-557 | Sending a close message in place equals the step function and keeps the object valid |
| Drivers.DrainHandshake | src/lib.rs:624-658 | The loop fails exactly on a task message; otherwise all replies and events come out in order, and the two flags are exact |
| Drivers.DrainTask | src/lib.rs:774-805 | The loop fails exactly on a handshake report; otherwise all replies, messages and events come out in order, and the stream closes exactly on a close message |
| SendAllFuture.SendAll.TryStartSend | src/send_all.rs:53-60 | With an empty buffer, the item ends up in the sink, in the buffer, or lost to a sink error |
| Wire.NonceIntoBytes | src/protocol/nonce.rs:69-77 | The array filled in place holds the nonce's bytes |
| Wire.SendErrorIdAsBytes | src/protocol/send_error.rs:25-32 | The array filled in place holds the id's bytes |
| Wire.FrameIntoBytes | src/boxes.rs:178-183 | Extending a vector by nonce and payload writes exactly the message |
| Agreement.NewInitiatorEndsAgreement | src/protocol/mod.rs:1788-1824 | A new-initiator message in the task phase keeps the phase and loses the session key, which is what the exact condition of agreement excludes |
| Agreement.InitiatorStepKeeps | src/protocol/mod.rs:1323-1518 | No step of the initiator, on any deliverable message, breaks the system's invariant |
| Agreement.ResponderStepKeeps | src/protocol/mod.rs:1904-2047 | No step of the responder, on any deliverable message, breaks the system's invariant |
| Agreement.ResponderSessionIsHonest | src/protocol/mod.rs:1126-1130 | A message under the two session keys that reaches the initiator was sealed by the responder in that very context |
| Agreement.InitiatorSessionIsHonest | src/protocol/mod.rs:1707-1714 | A message under the two session keys that reaches the responder was sealed by the initiator in that very context |
| Meeting.AuthReachesInitiator | src/protocol/mod.rs:1164-1212 | An honest server-auth message is accepted, leaves only untouched contexts, and registers exactly those of the listed responders that come late enough in the iteration order, numbered by their place in it |
| Meeting.NewsReachesInitiator | src/protocol/mod.rs:1220-1236 | News of a later responder is accepted and registers it with a context as drawn |
| Meeting.AuthReachesResponder | src/protocol/mod.rs:1741-1786 | An honest server-auth message is accepted and makes the responder start, or wait if the initiator is not there |
| Meeting.NewsReachesResponder | src/protocol/mod.rs:1788-1824 | News of a later initiator is accepted and makes the responder start |
| Opening.ServerAuthOpens | src/protocol/mod.rs:1741-1786 | A server-auth message that reports the initiator as connected leaves the responder started and puts exactly the opening messages on their way |
| Opening.NewInitiatorOpens | src/protocol/mod.rs:1788-1824 | So does a new-initiator message, in a new context |
| Opening.OpeningIsStaged | src/protocol/mod.rs:1750-1778 | With the initiator waiting, a token run is then five accepted messages from its end and a trusted one four, if the initiator's first number is fit for a first message |
| Progress.EverySchedule | src/protocol/mod.rs:1288-1518 | From every stage each effective delivery brings the end one step closer, and the queues are empty exactly at the end |
| Progress.FirstMessageAccepted | src/protocol/mod.rs:201-209 | The first message of a context is accepted exactly if its start sequence was not 2^32 - 1 |
| Progress.KeyIsRefused | src/protocol/mod.rs:201-209 | Otherwise the initiator's key message makes the responder stop with an invalid-nonce error |
| Progress.AuthArrives | src/protocol/mod.rs:1378-1518 | With a shared task the responder's auth message takes the initiator to the task phase with one auth message back |
| Progress.NoTaskIsShared | src/protocol/mod.rs:1426-1447 | Without one the initiator reports the error and sends a close message with code 3006 |
| Progress.CloseArrives | src/protocol/mod.rs:2051-2059 | That close message makes the responder report that no task is shared |
| Conversation.OutgoingIsSaid | src/lib.rs:908-976 | What the outgoing mapping makes of a task message is what the conversation records as said |
| Conversation.ArrivesAtResponder | src/protocol/mod.rs:370-440 | The message at the head of the queue is admitted and read as what was said next, and the numbering stays without a gap |
| Conversation.ArrivesAtInitiator | src/protocol/mod.rs:370-440 | The same towards the initiator |
| Conversation.JoiningEnds | src/protocol/mod.rs:1977-2047 | What the initiator's task sent while its auth message was on its way stands right behind it, and both talk once it has arrived |
| Session.CanReach | src/protocol/mod.rs:1288-1518 | From every point of every session, if the order keeps the responder and no draw to open with starts at 2^32 - 1, some schedule leads to every later one; nothing gets stuck |
| Session.CanComplete | src/protocol/mod.rs:1288-1518 | The schedule that ends well, if each client has a draw to open with |
| Session.LastStartIsRefused | src/protocol/mod.rs:201-209 | If the draw the responder opens with starts at 2^32 - 1, a session ends with an invalid-nonce error at the initiator |
| Session.LastStartIsRejected | src/protocol/mod.rs:201-209 | If a draw the initiator can take for the responder does, a session ends with that error at the responder |
| Session.CrowdedStrands | src/protocol/mod.rs:1520-1596 | On a crowded path some order and schedule end with nothing on its way, the responder not in the map, and neither client in the task phase or having reported an error |
| Reachability.ImitationDivides | src/protocol/mod.rs:1977-2047 | At every such point, for every other task of the responder |
| Reachability.TasksCanDivide | src/protocol/mod.rs:1977-2047 | A concrete pair of clients, in either mode, that shows it |
| Reachability.SmallPathFits | src/protocol/mod.rs:1255-1285 | In either mode and order of connection, the assumptions of these theorems are met by a concrete pair of clients and server |
| Reachability.CrowdedPathFits | src/protocol/mod.rs:1520-1563 | So are those of a crowded path |
| Reachability.LatePathFits | src/protocol/mod.rs:201-209 | And those of a path on which a first message is refused, either way |
| InitiatorLearning.StepTeaches | src/protocol/mod.rs:1288-1375 | A key in a responder context was there before, is the trusted one, or came in the message just opened with the token or the permanent keys |
| InitiatorLearning.ChoiceIsDeliberate | src/protocol/mod.rs:1378-1400 | A responder is chosen only on a message opened with its session keys that repeats our cookie, from its address and with its cookie |
| ResponderLearning.StepTeaches | src/protocol/mod.rs:1927-2047 | The session key came in a message opened with the permanent keys; completion needs an auth message under the session keys that repeats our cookie and names our task |
| InitiatorSelection.ListingHasNoDup | src/protocol/mod.rs:1191-1195 | Comparing the list's length with its set's size rejects exactly the lists with repetitions |
| InitiatorInvariants.ValidationHears | src/protocol/mod.rs:98-105 | Validation never meets the invalid-sender crash; an accepted or dropped message changes at most the identity and what we know of its sender |
| InitiatorInvariants.OldestIsLeast | src/protocol/mod.rs:1573-1577 | The candidate search finds an initial-state context of least counter if and only if there is one |
| InitiatorInvariants.AllAreDropped | src/protocol/mod.rs:1468-1472 | One drop-responder message per address, in order, with consecutive numbers, or the sequence numbers ran out |
| InitiatorInvariants.RegisterAllSplits | src/protocol/mod.rs:1203-1208 | For any order, registering the listed responders drops a prefix of it and retains the rest, numbered by position |
| InitiatorInvariants.WinnerIsAnswered | src/protocol/mod.rs:1464-1518 | Selecting a winner drops every other responder once, then answers the winner with its own cookie and the task, then reports completion; it fails only if sequence numbers run out |
| ResponderInvariants.ValidationHears | src/protocol/mod.rs:1637-1692 | Validation never meets the invalid-sender crash, the assigned identity is in the responder range, and acceptance stores the sender's cookie |
| ResponderInvariants.StartSteps | src/protocol/mod.rs:1750-1778 | Starting the peer handshake sends the token at most once and gives it up, then the key, both from the current context; it fails only without an auth provider or without numbers |
| Ledger.StepBalances | src/protocol/mod.rs:157-269 | A step whose links evolve and whose nonces are issued as demanded keeps: issued nonces increase per cookie, accepted ones never repeat, current links cover both |
| Ledger.HearingKeepsNoReplay | src/protocol/mod.rs:183-212 | Admitting one more nonce keeps the accepted ones of each context strictly increasing, with one cookie that is not ours |
| RunShape.ShapeKeepsPromises | src/lib.rs:624-658 | A well-shaped action log reports each completion at most once, server first, no task message before the handshake is done, nothing about the handshake after it |
| TaskTraffic.CloseCodeComesBack | src/protocol/mod.rs:414-428 | A close code comes back unchanged unless it spells out the number of a named one |
| Negotiation.ChooseSharedIsFirst | src/tasks.rs:135-142 | The choice is the earliest of our tasks that the peer proposes; there is none exactly if no name is shared |
| Negotiation.SharedTaskFound | src/protocol/mod.rs:1420-1433 | A task is found exactly when the two lists share a name |
| Negotiation.ProposalDataExact | src/protocol/mod.rs:1410-1418 | For duplicate-free proposals, count and membership together say that the data keys are the task names |
| Negotiation.RepeatedProposalSlipsThrough | src/protocol/mod.rs:1410-1418 | A concrete proposal with a repeated name passes with data for a task it does not propose |
| Tasks.SortSorts | src/protocol/messages.rs:442-443 | The sorted copy is in order and has the same elements the same number of times |
| Tasks.DedupCounts | src/protocol/messages.rs:443-444 | Removing adjacent repetitions from a grouped list leaves one entry per distinct element |
| Tasks.DuplicateTestIsExact | src/protocol/messages.rs:441-449 | The sort-dedup-compare-lengths test accepts exactly the duplicate-free lists |
| CombinedSequence.IncrementIsSuccessor | src/protocol/csn.rs:64-75 | The checked increment is +1 on the 48-bit number and fails exactly at 2^48 - 1 |
| CombinedSequence.LessIsLexicographic | src/protocol/csn.rs:139-163 | Comparing combined numbers is comparing (overflow, sequence) lexicographically |

## Left out

- Encryption, msgpack and hex parsing: foreign code; boxes are symbolic and serialised data is represented by what the deserialisers make of it.
- MessageValue: the map a message other than close reads back as carries its type only; no handler looks further into it.
- Peer contexts are values held by the signalling objects, replaced on update; sharing of a context between two holders is not modelled, and the code has none.
- Lock acquisition on sequence numbers and tasks, which cannot fail without concurrent access.
- The server's drop-responder message after the server handshake, which the code leaves unimplemented: an internal error here.
- The client-auth message's ping interval and subprotocol list, which no handler reads back.
- The meaning of the flag of the server-handshake event: the initiator passes whether the list of responders is empty, the documentation says whether the peer is connected. Nothing is proved about it.
- Opening the signed keys of a pinned server is reduced to one comparison of keys and nonce.
- The server's own state and checks: `Meeting` fixes what an honest server sends to the two clients, not what it does with client-hello, client-auth and drop-responder messages.
- The panics of the auth builders on fields that their own constructors rule out: the fields are not there.
- Raw encryption for tasks, sequence number snapshots for the application and the accessors of the contexts: easy members.
- WebSocket connection, TLS, timers, ping and pong, channels and futures, and what the drivers do after their action loops: I/O.
- Failing to notify the application inside the action loops, which depends on its end of the channel.
- Close-code texts, error texts, logging, key generation and erasing of secrets.
