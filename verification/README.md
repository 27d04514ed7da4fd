# Verification of topside, snorkel and the WebSocket probe

A Dafny 4.11 model of three cooperating programs and proofs about it. `dafny verify dfyconfig.toml`
checks everything.

**Topside's hub** (`crates/topside/src/hub.rs`) joins many phones to at most one served home link while a
replacement link may be brought up beside it. It rewrites request ids in one direction and question ids in
the other, and it keeps who watches and who drives each session. The model has three layers:

- `HubState` holds the data: the home slot, the phone book, the waits, and the traces of everything ever
  put on each link and on each phone's channel. `Json` is the abstract JSON, with the hub's classifiers.
- `HubSteps` says as functions what each event makes of that state; `HubRuns` chains them into runs. What
  hash iteration order decides (which watcher inherits a session, in which order targets are visited) is
  an arbitrary `Choice`, and the properties are proved for every choice.
- `HubObject.Hub` has the hub's own mutable fields and one method per handler, with the handler's own
  branches and loops. Each method is proved to make of the whole state exactly what its function says, and
  `Hub.Run` to have a run as its history, so the properties of runs hold of the object.

The properties are in one module per subject: `HubSubscriptions`, `HubLinks`, `HubAway`, `HubIds`,
`HubTexts` (five invariants of every reachable state), `HubSafety` (what they say of the channels alone),
`HubWatching` (exactly which events change who watches, who drives and which phones are ready),
`HubReplacement` and `HubCutover` (when the served link changes, and what its successor has done by then),
`HubRequests` and `HubDelivery` (the fate of each phone request), `HubQuestions` (fan-out and the first
answer), `HubAnswers` (nothing else puts an answer on a link), `HubProgress` (exactly when a candidate comes
to be served), `HubHandshake` (stages and the time bound), `HubVersions` (who is spoken to, and what a phone
is told of versions refused), `HubScenarios` (whole runs in which something one might expect does not
happen), with `PendingLoads` and `SessionOrder` below them. `HubLoops` holds what the object's loops
over hash tables add up to. `HubLinkEffects` and `HubPhoneEffects` say of each event what it must bring about,
in terms of the fields of its message alone: the whole state after it, and who has been sent what.

**The byte path.** `Bytes` and `Streams` give bytes, big-endian numbers, and streams read and written in
pieces of any size that may end early. `Wire` is the leader's frame codec, `Relay` the snorkel's copy
loop, `WebSocket` the frames of `docker/phone.py` (sections 5.2 and 5.3 of RFC 6455), and `Probe` its
exchange of requests and replies.

**The snorkel.** `Session` is one session's race of two copies, `Backoff` the delay arithmetic, and
`SnorkelLink` the states of the link and its report.

Some things one might expect of the hub are not true of its code. Each is shown by a run from the hub's
start in `HubScenarios`, and the exact condition under which it does hold is proved.

- "A successor has had its initialize answered." The hub takes a result under any id it waits for as an
  initialize, and never gives up those of dropped candidates, so a candidate can finish its handshake on
  another link's answer (`SuccessorUnanswered`). It can only finish on its own exactly when no other link's
  is waited for (`HubCutover.OwnInitializeIff`), which is also what `ReplacementOrder` says.
- "A result for a forwarded request reaches its phone." A result spends its wait even when it comes on the
  wrong link (`ResultIsLost`). Over every run the request is answered exactly when the one result that
  spends its wait comes on the link then served while its phone is connected
  (`HubDelivery.RequestAnsweredIff`).
- "The answer to a question goes to the link that asked it." A claim does not remember which link asked
  (`AnswerGoesToSuccessor`). It does exactly when that link is still the one served
  (`HubQuestions.AnswerReachesAskerIff`).

Two more facts decide how the properties are worded. A load that is answered with an error counts as
answered. The sessions a successor loads are those watched when it gets past initialize; one first watched
later is not loaded before the cutover.

## Model

| member | source | states |
|---|---|---|
| HubObject.Hub.constructor | crates/topside/src/hub.rs:288-303 | a new hub holds no link, no phone, no wait and no claim, and has sent nothing |
| HubObject.Hub.Handle | crates/topside/src/hub.rs:327-337 | whatever order the hash tables are visited in, handling an event is one legal step of the specification |
| HubObject.Hub.Run | crates/topside/src/hub.rs:305-325 | the history of the hub's loop is a run made of the arrivals in their order, less exactly the wake-ups that found no deadline due, and ends with the shutdown of its last state |
| HubObject.Hub.Shutdown | crates/topside/src/hub.rs:999-1010 | every link still held is halted, a candidate before the link it was to replace, and the phones are gone |
| HubObject.Hub.OnAccepted | crates/topside/src/hub.rs:348-388 | a new link takes the candidate's place with ten seconds to register; only an older candidate is dropped for it, never the served link |
| HubObject.Hub.OnHomeFrame | crates/topside/src/hub.rs:390-419 | frames of links not held are ignored; registration and readiness count for candidates only; an error ends the link that sent it |
| HubObject.Hub.OnRegistered | crates/topside/src/hub.rs:421-451 | a wrong version is remembered and fails the candidate; a right one moves it on, once |
| HubObject.Hub.OnLeaderReady | crates/topside/src/hub.rs:453-464 | readiness starts initialize, only for a candidate waiting for it |
| HubObject.Hub.SendFollowerInitialize | crates/topside/src/hub.rs:466-470 | the hub's own initialize goes out under a fresh id that is noted |
| HubObject.Hub.OnHomeAcp | crates/topside/src/hub.rs:472-493 | requests and notifications are heard from the served link only; results from any link held |
| HubObject.Hub.OnHomeResult | crates/topside/src/hub.rs:495-531 | the wait is spent first, then acted on only if the link has the right role |
| HubObject.Hub.AfterFollowerInitialize | crates/topside/src/hub.rs:533-559 | with nothing watched the candidate is served at once; otherwise one load per watched session goes out |
| HubObject.Hub.StartLoads | crates/topside/src/hub.rs:130-148 | consecutive fresh ids, one per watched session, in session order |
| HubObject.Hub.SendLoads | crates/topside/src/hub.rs:549-555 | every load id is noted and its request is sent, in id order |
| HubObject.Hub.AfterLoadResult | crates/topside/src/hub.rs:561-575 | the last load answered makes the candidate served; any other answer leaves it waiting |
| HubObject.Hub.FinishSuccessor | crates/topside/src/hub.rs:577-598 | the incumbent is halted only here; without one, all ready phones are told the host is back |
| HubObject.Hub.OnHomeNotification | crates/topside/src/hub.rs:600-617 | an update reaches the connected watchers of its session, and nobody for any other notification |
| HubObject.Hub.OnReverseRequest | crates/topside/src/hub.rs:619-657 | one claim is opened and each target is asked once, under an id of its own, in any order |
| HubObject.Hub.OnHomeEof | crates/topside/src/hub.rs:659-683 | the served link's end leaves a candidate alone in the slot and tells all ready phones; a candidate's end leaves the incumbent |
| HubObject.Hub.FailIncoming | crates/topside/src/hub.rs:685-696 | exactly the named candidate is halted; the incumbent stays |
| HubObject.Hub.OnDeadline | crates/topside/src/hub.rs:698-709 | a candidate in a timed stage is halted; any other slot is left alone |
| HubObject.Hub.TakeCandidate | crates/topside/src/hub.rs:963-985 | the named candidate and the incumbent are moved out of the slot, or nothing is |
| HubObject.Hub.PutCandidate | crates/topside/src/hub.rs:987-997 | the slot holds the candidate again, beside the incumbent if there was one |
| HubObject.Hub.OnPhoneHello | crates/topside/src/hub.rs:711-720 | a phone gets a fresh number and an empty channel |
| HubObject.Hub.OnPhoneText | crates/topside/src/hub.rs:722-750 | texts of unknown phones are ignored; unparsable ones are answered; requests, notifications and replies part ways |
| HubObject.Hub.OnPhoneRequest | crates/topside/src/hub.rs:752-784 | each method's own arm: answered here, refused before initialize, or subscribed and forwarded |
| HubObject.Hub.AnswerInitialize | crates/topside/src/hub.rs:786-798 | the result first, then an away note if the host is away, then the phone is ready |
| HubObject.Hub.ForwardRequest | crates/topside/src/hub.rs:800-815 | with no served link the phone gets an error; otherwise the request goes out under a fresh id that remembers phone and id |
| HubObject.Hub.OnPhoneReply | crates/topside/src/hub.rs:824-841 | the question's id is spent; the first answer to the claim goes to the served link under the home's id |
| HubObject.Hub.OnPhoneEof | crates/topside/src/hub.rs:843-872 | the phone's watches and open questions end, and each session it drove passes to some remaining watcher |
| HubObject.Hub.RetainWatchers | crates/topside/src/hub.rs:845-848 | every watcher set loses the phone, and sets that become empty are removed |
| HubObject.Hub.PassOn | crates/topside/src/hub.rs:849-870 | sessions the phone drove pass to one of their watchers, or lose their driver if unwatched |
| HubObject.Hub.Watch | crates/topside/src/hub.rs:874-886 | only a ready phone becomes a watcher, and it drives the session if nobody does |
| HubObject.Hub.Unwatch | crates/topside/src/hub.rs:888-900 | the last watcher takes the session with it; a driver that leaves is replaced by a remaining watcher |
| HubObject.Hub.BroadcastAway | crates/topside/src/hub.rs:924-931 | one note to each ready phone and to no other |
| HubRuns.StepKeepsGood | crates/topside/src/hub.rs:327-346 | every event, with every choice, keeps all five invariants |
| HubRuns.Reachable | crates/topside/src/hub.rs:305-325 | every state of every run satisfies them |
| HubSubscriptions.StepKeepsSubscribed | crates/topside/src/hub.rs:843-900 | watchers are ready connected phones, a session has a driver exactly when it is watched and the driver watches it, open questions belong to ready phones and lead to claims |
| HubLinks.StepKeepsLinks | crates/topside/src/hub.rs:348-598 | every accepted link is held or halted exactly once, a candidate is newer than the incumbent, each stage matches what the link has been sent, and a finished handshake is never stored |
| HubAway.StepKeepsAway | crates/topside/src/hub.rs:659-709 | every step keeps the last away note of each ready phone true |
| HubIds.StepKeepsIds | crates/topside/src/hub.rs:543-555 | request ids are never reused on any links; waits are for requests that went out; claims are under numbers that never did |
| HubTexts.StepKeepsTexts | crates/topside/src/hub.rs:943-951 | question ids are never reused on any channels, open ones were really asked, and a phone that has not initialized hears only answers |
| HubSafety.LastNoteIsTrue | crates/topside/src/hub.rs:924-931 | in every reachable state the last note of each ready phone, none counting as "not away", says away exactly when no link is served |
| HubSafety.LinkHearsInOrder | crates/topside/src/hub.rs:466-470 | the first message on any link, and no other, is the hub's initialize; then come loads in ascending order, then phone texts, never a phone's own initialize request |
| HubSafety.CandidateHearsOnlyHub | crates/topside/src/hub.rs:906-916 | no phone text reaches a link still being brought up |
| HubSafety.RequestIdsDistinct | crates/topside/src/hub.rs:943-946 | no two requests on any links carry the same id |
| HubSafety.QuestionIdsDistinct | crates/topside/src/hub.rs:948-951 | no two questions to any phones carry the same id |
| HubSafety.QuietBeforeInitialize | crates/topside/src/hub.rs:918-931 | a phone that has not initialized has been sent only errors and results: no note, no update, no question |
| HubSafety.WatchersAreReady | crates/topside/src/hub.rs:874-900 | in every reachable state whoever watches a session is ready, and one of its watchers drives it |
| HubWatching.StepMovesWatchers | crates/topside/src/hub.rs:843-900 | a phone watches a session after a step exactly if it joined just now (load, resume, or a delivered result naming it) or watched before and has not left; a driver that still watches keeps the session |
| HubWatching.StepMovesReady | crates/topside/src/hub.rs:786-798 | a phone becomes ready by its own initialize and nothing else, and stays so until it is gone |
| HubReplacement.StepMovesService | crates/topside/src/hub.rs:577-598 | the served link changes only by its own end or by its candidate completing the handshake |
| HubReplacement.StrangerChangesNothing | crates/topside/src/hub.rs:390-392 | frames and ends of links the hub does not hold change nothing at all |
| HubReplacement.ServiceIsMonotone | crates/topside/src/hub.rs:348-388 | over a run the served generation never decreases, across any time away |
| HubReplacement.HaltedStays | crates/topside/src/hub.rs:65-71 | a halted link is never held again |
| HubReplacement.EveryLinkEndsOnce | crates/topside/src/hub.rs:65-71 | a link is held exactly while it has not been halted, and after shutdown every accepted link has been halted exactly once |
| HubLinkEffects.AcceptEffect | crates/topside/src/hub.rs:348-388 | every accept makes the new link the candidate with 10 000 ms to register, halts the candidate before it and no other link, and leaves the served one |
| HubLinkEffects.EndOfServed | crates/topside/src/hub.rs:659-683 | when the served link ends or reports an error it is halted, nothing is served, the candidate stays as it was, each ready phone hears `HostAway(true)` once and no one else anything |
| HubLinkEffects.EndOfCandidate | crates/topside/src/hub.rs:406-418 | a candidate's own end or error halts that link and changes nothing else: not who is served, no channel |
| HubLinkEffects.DeadlineEffect | crates/topside/src/hub.rs:698-709 | a deadline that passes always halts the candidate, and changes nothing else |
| HubLinkEffects.EndIsFinal | crates/topside/src/hub.rs:659-709 | over every run a link is never held again after its own end, its deadline as a candidate, or a refused version |
| HubLinkEffects.ShutdownEffect | crates/topside/src/hub.rs:999-1010 | shutdown halts the candidate, then the served link, and lets every phone go |
| HubLinkEffects.RefusedEffect | crates/topside/src/hub.rs:421-429 | a candidate registering under any version but 1, higher or lower, is halted, the version is remembered, and nothing else changes |
| HubLinkEffects.RegisteredEffect | crates/topside/src/hub.rs:430-451 | version 1 and ready: initialize goes out under the next id; not ready: 120 000 ms to become so; registering again moves nothing |
| HubLinkEffects.ReadyEffect | crates/topside/src/hub.rs:453-470 | readiness makes a candidate that waited for it be asked to initialize, and changes nothing at any other stage |
| HubLinkEffects.IgnoredFrames | crates/topside/src/hub.rs:393-408 | registration and readiness from the served link, and frames that carry nothing, change nothing |
| HubLinkEffects.InitializeResultEffect | crates/topside/src/hub.rs:514-559 | the candidate's result for an initialize: an error halts it, anything else puts it into service if nothing is watched, or sends a load for each watched session, each once, in order, under the next ids |
| HubLinkEffects.LoadResultEffect | crates/topside/src/hub.rs:561-575 | the last of a candidate's loads puts it into service, any other is crossed off, another link's changes nothing here |
| HubLinkEffects.StrayResultEffect | crates/topside/src/hub.rs:495-528 | a result in the wrong role only ends its wait; one without a wait changes nothing |
| HubLinkEffects.OddIdEffect | crates/topside/src/hub.rs:490-498 | a message without a method whose id is no natural number, or missing, changes nothing |
| HubCutover.AlwaysPrepared | crates/topside/src/hub.rs:533-575 | a link past initialize got there by a result under an awaited initialize id, was asked to load exactly the sessions watched then, and each load is open or has been answered on that link since |
| HubCutover.ReplacementOrder | crates/topside/src/hub.rs:577-598 | a served link is lost only by its own end or error, or to a newer link that was past initialize, by the answer to its own if no other was waited for, and on which a result for every load of its snapshot has arrived since |
| HubCutover.OwnInitializeIff | crates/topside/src/hub.rs:495-520 | a candidate can get past initialize only by the answer to its own exactly when no initialize of another link is waited for |
| HubScenarios.SuccessorUnanswered | crates/topside/src/hub.rs:495-598 | a run in which a link takes over although its own initialize is never answered |
| PendingLoads.StartIsConsistent | crates/topside/src/hub.rs:130-148 | the sessions to load are exactly the range of the ids, one id each |
| PendingLoads.LoadedCrossesOff | crates/topside/src/hub.rs:150-160 | an answer crosses off its own id only; Done comes at exactly the last one |
| PendingLoads.DoneWhenAllAnswered | crates/topside/src/hub.rs:150-160 | in any order, with any other ids between, the loads are done exactly when every load id has been answered |
| SessionOrder.Ordered | crates/topside/src/hub.rs:138-142 | an ordered set's iteration: each session once, strictly ascending |
| SessionOrder.BeforeAtDifference | crates/topside/src/hub.rs:138-142 | the order: a proper beginning comes first, else the smaller character at the first difference |
| HubRequests.RequestAnsweredOrForwarded | crates/topside/src/hub.rs:752-815 | each request of a connected phone is either answered here under its own id and nowhere else, or forwarded on the served link under a fresh id that remembers phone and id |
| HubRequests.AnswersByMethod | crates/topside/src/hub.rs:752-798 | a request that is not forwarded gets exactly the answer and error code its method and the state call for |
| HubRequests.OnlyInitializeReadies | crates/topside/src/hub.rs:752-798 | of all requests only `initialize` changes which phones are ready, and it makes its own phone so |
| HubRequests.StepLedger | crates/topside/src/hub.rs:495-501 | waits leave only by a result under their id, and enter only by a forward or as the hub's own requests under fresh ids |
| HubDelivery.FateOfRequest | crates/topside/src/hub.rs:495-513 | in every run a forwarded request waits until the first result under its id, and there is at most one that spends it |
| HubDelivery.ResultReachesItsSender | crates/topside/src/hub.rs:502-513 | a result on a phone's channel answers a request that this phone sent earlier in the run, under the id it used, and goes to no other channel |
| HubDelivery.RequestAnsweredIff | crates/topside/src/hub.rs:495-513 | over every run a forwarded request is answered on its phone's channel, once, exactly if the one step that spends its wait is on the link then served while the phone is connected |
| HubScenarios.ResultIsLost | crates/topside/src/hub.rs:499-505 | a run in which a candidate's result spends the wait of a request and its phone, still connected to a served link, gets nothing |
| HubDelivery.ResultIsDeliveredIff | crates/topside/src/hub.rs:499-513 | a result spends its wait, and reaches the phone, and nobody else, exactly when it comes on the served link while the phone is connected |
| HubDelivery.SecondResultChangesNothing | crates/topside/src/hub.rs:499-501 | a second result with the same id changes nothing |
| HubDelivery.SpentStays | crates/topside/src/hub.rs:943-946 | an id once spent never waits again |
| HubPhoneEffects.HelloEffect | crates/topside/src/hub.rs:711-720 | a phone that joins gets the next number, is connected but not ready, and has been sent nothing |
| HubPhoneEffects.GoneEffect | crates/topside/src/hub.rs:843-872 | a phone that goes leaves every session and drops exactly its own open questions; a session it drove passes to a watcher left, or to nobody exactly if none is |
| HubPhoneEffects.NotificationEffect | crates/topside/src/hub.rs:817-822 | a connected phone's notification is put on the served link unaltered, and changes nothing else; with none served, nothing at all |
| HubPhoneEffects.UnparsableEffect | crates/topside/src/hub.rs:726-731 | a text that is no JSON object is answered with a parse error under a null id, and changes nothing else |
| HubPhoneEffects.IgnoredTexts | crates/topside/src/hub.rs:722-750 | texts of phones that are gone, answers to no open question and objects that are neither request, notification nor answer change nothing |
| HubPhoneEffects.AnswerEffect | crates/topside/src/hub.rs:824-841 | an answer spends its question's id and takes the claim; it goes to the served link under the home's id exactly if the claim was open |
| HubPhoneEffects.OpenEffect | crates/topside/src/hub.rs:760-769 | a load or resume makes a ready phone watch the session it names, driving it if nobody does, and changes the book in no other way |
| HubPhoneEffects.CloseEffect | crates/topside/src/hub.rs:770-775 | a close ends its phone's watch; the last watcher takes the session out of both tables, and a driver hands over to a watcher left |
| HubPhoneEffects.OtherRequestsEffect | crates/topside/src/hub.rs:776-783 | no other request touches watchers, drivers, questions or claims |
| HubPhoneEffects.ResultEffect | crates/topside/src/hub.rs:503-513 | a result the served link sends for a phone goes to it under the id it used and to nobody else, and makes it watch the session the result is about |
| HubPhoneEffects.NewSessionSubscribes | crates/topside/src/hub.rs:507-509 | a result with a `sessionId` under `result`, and none under `params`, makes the waiting phone watch that session, and drive it if nobody did |
| HubPhoneEffects.RefusalNamesVersion | crates/topside/src/hub.rs:933-941 | over every run, a phone refused because the host is away is told the version the last candidate registered under, unless that was 1 or there was none |
| HubQuestions.UpdateReachesWatchers | crates/topside/src/hub.rs:600-617 | an update adds one copy to each watcher's channel and nothing to anyone else's, and changes nothing else |
| HubQuestions.CandidateIsNotHeard | crates/topside/src/hub.rs:472-493 | requests and notifications from any link but the served one change nothing |
| HubQuestions.NothingToPassOn | crates/topside/src/hub.rs:600-628 | a notification that is no session update, and a request or notification about no session, change nothing |
| HubQuestions.QuestionReachesTargets | crates/topside/src/hub.rs:619-657 | an interaction reaches exactly the watchers and any other question exactly the driver, once each, under ids that lead to one new claim |
| HubQuestions.QuestionStaysOpen | crates/topside/src/hub.rs:824-872 | an open question stays with its phone, under the same claim, until exactly that phone answers it or is gone |
| HubQuestions.AnswerGoesHomeOnce | crates/topside/src/hub.rs:824-841 | an answer to an open claim goes to the served link with the home's id; to a taken one, nowhere |
| HubQuestions.FirstAnswerWins | crates/topside/src/hub.rs:236-242 | over every run the first answer of any phone goes home under the id the home gave that question, and every later one sends nothing |
| HubAnswers.AnswerOnLinkIsFirst | crates/topside/src/hub.rs:824-841 | over every run, an answer that appears on a link is the first answer of any phone to a question, on the link then served, under the id the home gave that question |
| HubQuestions.AnswerReachesAskerIff | crates/topside/src/hub.rs:824-841 | the first answer reaches the link that asked exactly when that link is still served; else it goes to the successor, or nowhere |
| HubScenarios.AnswerGoesToSuccessor | crates/topside/src/hub.rs:824-841 | a run in which link 1 asks, is replaced, and the first answer is sent on link 2 |
| HubProgress.OwedIsWaitedOrLost | crates/topside/src/hub.rs:495-575 | in every run, what a candidate owes is still waited for unless a result on another link has spent the wait |
| HubProgress.AnsweringOwnIsServed | crates/topside/src/hub.rs:495-598 | in every run, a link still held is served once each of the hub's requests on it was answered by a result on it |
| HubProgress.ServedIffLoadsAnswered | crates/topside/src/hub.rs:533-598 | in every run, a link past initialize is served exactly once every load put on it was answered by a result on the link itself |
| HubProgress.LostLoadIsNeverServed | crates/topside/src/hub.rs:92-99 | once a load's answer has come on another link the candidate is never served, and no deadline ends its waiting |
| HubProgress.HonestAnswersOwn | crates/topside/src/hub.rs:533-541 | if links answer only their own ids, the result taken for a successor's initialize answers its own |
| HubProgress.OwedIsUnheard | crates/topside/src/hub.rs:495-575 | if links answer only their own ids, what a candidate still owes has not been answered on it and is still waited for |
| HubProgress.AnsweringAllIsServed | crates/topside/src/hub.rs:495-598 | if links answer only their own ids, a link still held that has answered its initialize and every load is served |
| HubHandshake.StepMovesStage | crates/topside/src/hub.rs:421-464 | a stage never goes back, and only the step to the second stage sets a new deadline |
| HubHandshake.StagesMoveForward | crates/topside/src/hub.rs:73-99 | over a run a candidate's stages only move forward |
| HubHandshake.EarlyStagesEnd | crates/topside/src/hub.rs:339-364 | whatever a leader sends, 130 seconds after its accept no candidate is in a stage before initialize |
| HubHandshake.TimeGoesOn | crates/topside/src/hub.rs:305-325 | every timed run that ends with a deadline goes on past it: the wake-up at that moment halts the candidate, keeps the served link and leaves no deadline |
| HubHandshake.EarlyStageEndsInTime | crates/topside/src/hub.rs:305-325 | and a timed run that ends with a link still in a stage before initialize goes on, within those 130 seconds, with the wake-up that halts it |
| HubVersions.SpokenToRegistered | crates/topside/src/hub.rs:421-470 | over every run, a link that was ever sent anything, or is served, registered under version 1 before, while it was the candidate |
| HubVersions.RefusedIsLastRegistered | crates/topside/src/hub.rs:421-430 | over every run, a version is remembered as refused exactly if the last candidate to register did so under it and it is not 1 |
| Json.QuestionIdInjective | crates/topside/src/hub.rs:948-951 | different numbers give different question ids |
| Json.SessionIs | crates/topside/src/wire.rs:188-200 | a message is about the string `params.sessionId`, and only without one about the string `result.sessionId` |
| Json.InteractionNames | crates/topside/src/wire.rs:175-187 | exactly four method names, each with or without one underscore in front, are for every watcher |
| Json.DecimalIsNumeral | crates/topside/src/hub.rs:933-951 | numbers are written in decimal digits, without leading zeros |
| Wire.WriteFrame | crates/topside/src/wire.rs:92-103 | an oversized payload is refused with nothing written; otherwise the encoding is written, or the front of it on a broken stream |
| Wire.ReadFrame | crates/topside/src/wire.rs:80-90 | under any chunking the outcome and the bytes left are what `Decode` says of the bytes to come |
| Wire.ReadFrames | crates/topside/src/net.rs:111-128 | reading until the first error gives exactly the frames at the front of the stream |
| Wire.DecodesIff | crates/topside/src/wire.rs:80-103 | a stream decodes to a frame exactly when it begins with that frame's encoding and the payload is within the limit |
| Wire.OversizedIff | crates/topside/src/wire.rs:83-86 | a header is refused exactly when its length is over the limit |
| Wire.FrameOnTheWire | crates/topside/src/wire.rs:99-100 | four bytes of length, the most significant first, then the payload |
| Wire.FramesRoundTrip | crates/topside/src/wire.rs:80-103 | decoding the encodings of any list of payloads within the limit gives the list back |
| Wire.FramesOfPrefix | crates/topside/src/wire.rs:80-90 | of a stream cut anywhere, exactly the frames that arrived whole are read |
| Bytes.NumberOfBigEndian | crates/topside/src/wire.rs:99 | a number that fits its width is read back from its bytes |
| Bytes.BigEndianOfNumber | crates/topside/src/wire.rs:83 | bytes are those of the number read from them |
| Bytes.MostSignificantFirst | crates/topside/src/wire.rs:83 | the first byte counts most |
| Streams.Reader.ReadExact | crates/topside/src/wire.rs:82-88 | under any chunking exactly the next bytes are read, or an error if there are too few |
| Streams.Writer.WriteAll | crates/snorkel/src/session.rs:95 | all of a buffer is written in portions of any size, or the front of it and an error |
| Relay.CopyHalf | crates/snorkel/src/session.rs:83-98 | bytes come out as they went in; the counter is exact on a clean end, and on a failed write never above the bytes delivered and less than a buffer behind |
| Relay.RelayFrames | crates/snorkel/src/session.rs:83-98 | frames relayed and regrouped in any way come out as they went in, or some of the first of them if the source ends early or the relay is cut short |
| Session.Run | crates/snorkel/src/session.rs:37-60 | when one copy ends and the other is dropped, each counter is at most the bytes delivered in its direction and less than a buffer behind, and the outcome names the side that ended and the error it ended on |
| WebSocket.MaskFrame | docker/phone.py:146-159 | a masked final frame in the shortest length form; too long a payload cannot be packed |
| WebSocket.Conn.RecvExact | docker/phone.py:93-100 | under any split into reads exactly the next bytes are returned and the rest is kept |
| WebSocket.RecvMessage | docker/phone.py:162-175 | the opcode, the unmasked payload and the bytes left are what `Receive` says of the bytes to come |
| WebSocket.RoundTrip | docker/phone.py:146-175 | for every payload below 2^64 bytes and every mask or none, receiving a frame gives its opcode and payload and leaves what follows |
| WebSocket.ReceiveIff | docker/phone.py:162-175 | a message is received exactly if the bytes begin with one: a first byte, a length in any of its three forms, a mask if the bit is set, and that many bytes |
| WebSocket.OpcodeRoundTrip | docker/phone.py:149 | a four-bit opcode survives beside the final bit |
| WebSocket.LengthRoundTrip | docker/phone.py:151-158 | all three length forms give the length and the mask bit back |
| WebSocket.Shortest | docker/phone.py:151-158 | no frame received as the same payload is shorter |
| WebSocket.PayloadOnTheWire | docker/phone.py:146-159 | where the mask and each payload byte stand in a frame, and that it is xored with the mask byte of its place |
| WebSocket.HelloFrames | docker/phone.py:146-159 | the frames of section 5.7 of RFC 6455 that carry "Hello", masked and not, byte for byte |
| WebSocket.LongHeaders | docker/phone.py:151-158 | the headers of the long frames of section 5.7 of RFC 6455 |
| Probe.RecvText | docker/phone.py:178-190 | the next text message, if and only if it can be got to; each ping before it is answered with its payload, and control frames are never texts |
| Probe.WaitReply | docker/phone.py:193-199 | the first message with the request's id is the reply, returned if and only if it can be got to; every message before it becomes a note, in order |
| Probe.HearIff | docker/phone.py:178-190 | a text is got to exactly if only pings and pongs come before it and the pongs can be sent |
| Probe.AwaitIff | docker/phone.py:193-199 | a reply is got to exactly if every message before it is a ping, a pong or an object with another id and the pongs can be sent; the notes are exactly the texts before it |
| Probe.AwaitFinds | docker/phone.py:193-199 | and where there is no such message no reply is returned |
| Probe.Ask | docker/phone.py:262-263 | one more request is settled by one more reply, if and only if it can be got to, and the peer sees the request and the pongs |
| Probe.Exchange | docker/phone.py:249-267 | the outcome is that of the messages to come, an exception exactly when some reply cannot be got to; replies are in send order under their requests' ids, the texts read are exactly replies and notes interleaved, and the peer sees exactly the requests and a pong per ping |
| Probe.AskEachIff | docker/phone.py:256-259 | requests all get their replies exactly if each has an id, can be sent, and finds its reply behind the one before it |
| Probe.IdsEqualIff | docker/phone.py:33-34 | ids compare as texts or by numeric value, booleans counting as 0 and 1 |
| Probe.SessionFromIff | docker/phone.py:37-48 | the session of a reply, by its fields: non-empty under `params`, else under `result` |
| Probe.FirstSessionIff | docker/phone.py:261 | the session loaded is that of the first reply that names one |
| Probe.OneMoreSettled | docker/phone.py:249-267 | sending a request and reading to its reply keeps the account of the exchange |
| Backoff.BaseAfterFailures | crates/snorkel/src/link.rs:157-164 | after k failures the base is 500 ms doubled k-1 times, cut off at 30 s, for every k |
| Backoff.BaseIsMonotone | crates/snorkel/src/link.rs:157-164 | more failures never mean a shorter base |
| Backoff.MaximumFromSeven | crates/snorkel/src/link.rs:157-164 | the base is 30 s exactly from the seventh failure on |
| Backoff.NeverOverflows | crates/snorkel/src/link.rs:158-161 | for every 32-bit attempt count the shift and the product stay in range |
| Backoff.DelayWithin | crates/snorkel/src/link.rs:162-163 | jitter takes off at most a fifth, and no delay is above 30 s |
| Backoff.DelayIff | crates/snorkel/src/link.rs:162-163 | the delays there can be are exactly those from four fifths to the whole of the base |
| Backoff.AttemptsCount | crates/snorkel/src/link.rs:148-150 | the attempt count is the number of failures, and stays at its maximum |
| SnorkelLink.Snorkel.Step | crates/snorkel/src/link.rs:72-141 | one step of the link, with the report it updates |
| SnorkelLink.Snorkel.Run | crates/snorkel/src/link.rs:50-69 | stepping until stopped ends in the state the whole run leads to |
| SnorkelLink.ReportAccounts | crates/snorkel/src/link.rs:99-116 | sessions counts the times the link came up, and the totals are the bytes of the sessions that ended by themselves |
| SnorkelLink.ReportWithinDelivered | crates/snorkel/src/link.rs:110-116 | if each session's counters are at most what it delivered, the report's totals are at most what all sessions together delivered |
| SnorkelLink.OnceMeansOnce | crates/snorkel/src/link.rs:127-129 | with `once` there is at most one session and never a second dial |
| SnorkelLink.WaitFollowsFailures | crates/snorkel/src/link.rs:130-155 | while down the run counts the failures in a row, and the wait is that run's delay |
| SnorkelLink.WaitWithin | crates/snorkel/src/link.rs:124-164 | in every run the wait after k failures in a row is four fifths to the whole of the doubled first delay, capped; after a productive session, of the first delay |
| SnorkelLink.LastInputDecides | crates/snorkel/src/link.rs:72-155 | in every run the link is up, waiting or stopped according to the last event and `once` alone |
| SnorkelLink.DialsAreSpaced | crates/snorkel/src/link.rs:79-83 | in every run no dial comes sooner after the end of the last dial or session than four fifths of the doubled first delay |

## Left out

- 64-bit wrap-around of the hub's counters and of the snorkel's byte and session totals: they are unbounded here.
- JSON text: messages arrive parsed, a text that is no object arrives as `None`, and what the hub writes is kept as records; `serde_json` and the exact wording of texts are not modelled.
- Deadlines race with messages in the hub's `select!`; `HubHandshake.IsTimed` takes a deadline to fire no later than it is reached. Waiting for initialize and for loads has no deadline in the code, so no bound is claimed for it.
- Replies to requests in flight when the home is lost, and answers to claims whose phones have all left, never come; no liveness is claimed for them.
- The hub after `shutdown`: a run ends there.
- Channels beyond "appended in order": delivery, full queues and dropped receivers.
- The error branch of `Replace::arm`, which `finish_successor` cannot reach since it arms a finished handshake only.
- `read_frame` inside the home connection's `select!`, where it can be dropped half way: frames are read to completion here.
- Session.Run: takes which copy ends first from the streams, each given as far as it gets before the session is over; the polling of the two copies in turn is not modelled.
- Backoff.DelayWithin: delays are exact real numbers of milliseconds; the rounding of `mul_f64` to nanoseconds is not modelled, and the random draw is any number from 0.8 to 1.
- Probe.WaitReply: decoding UTF-8 and parsing JSON are one arbitrary function; ids are compared as Python compares them except for NaN.
- Probe.Exchange: all exceptions are one outcome; which one is raised, and what is left to be read after it, is not stated.
- `flush`, TLS, sockets, accept loops, pings, signals, configuration, tokens, the HTTP upgrade and the probe's exit codes.
