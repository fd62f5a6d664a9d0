# Device authentication

A model of the device-authentication subsystem of the distributed soft bus, and proofs about it. The subsystem
lets two devices authenticate each other over a connection, remembers the result per device and link, and hands
it to whoever asked. Its parts share state; the model follows them:

- **Sessions** (`SessionFsm`, `AuthFsm`). A session is a state machine with four states - negotiation, id exchange,
  device-auth, sync-device-info - fed by twelve message types through a looper queue, with one delayed timeout.
  `SessionFsm` gives its handlers as functions; `AuthFsm` is the object whose methods update its fields, each proved
  to do what the function says. `SessionInvariants`, `SessionProgress`, `SessionFinish` and `SessionRuns` are about
  every run of one session, `SessionDecisions` says what each message decides, `SessionSuccess` that authentication
  can succeed. `SessionInputs`, `TwoParty` and `DeliveredOnce` are about two sessions and the network between them -
  one that repeats packets and one that delivers each device id at most once - and `SessionLimits` holds the runs that
  show which conditions are needed.
- **Requests** (`Addresses`, `Requests`, `RequestOutcomes`, `RequestRuns`, `RequestProgress`, `RequestAnswers`,
  `RequestList`). Requests for one address queue behind each other, expire, are drained on success and retried on
  failure.
- **Turn taking** (`NormalizeQueue`, `QueueEffects`, `NormalizeList`, `SharedTurns`). Sessions for one peer take turns
  to send their device id; `SharedTurns` puts any number of sessions, their networks and the queue together.
- **Managers** (`Registry`, `RegistryEffects`, `AuthManagers`). Two lists of managers with one slot per link type.
- **Numbers and frames** (`SeqNumbers`, `ConnIds`, `Framing`). Sequence numbers, packed connection ids, the frame header.
- **User keys** (`UserKeys`, `UserKeyStore`). Which end of a profile gets a new key id, and the cache of keys.

Where the source updates something in place the model has a class whose methods - loops, arrays and recursion included -
are proved against functions on the object's value; the theorems about runs are about those functions.

What the outside answers - sends, HiChain, the ledger, the profile service, clocks - enters as a parameter (`Oracle`,
`World`, `Stamp`, a flag), so each theorem holds for every behaviour of it. What a session does to the outside is recorded
in its log, what a request list does in its answers.

## Assumptions

- Locks are obtained, memory is allocated, and copying a terminated string into a buffer of its own size succeeds.
- A session's timeout is posted together with its start; the looper handles one message at a time.
- The comparison of udid-hash prefixes is one number per pair of devices, seen with opposite signs from the two ends.
- Request ids and session sequence numbers are not reused, and user callbacks do not call back into the lists.
- Connection ids are non-zero; `ConnIds.TypedIsNotZero` shows that packing a link type makes them so.
- A session queued for its turn is woken only by the queue it joined, and an entering session is told what the queue holds.

## Where code and expectation differ

- A HiChain error numbered 0 completes a session with `SOFTBUS_OK` and no key (`SessionRuns.OkWithoutKey`,
  `SessionLimits.OkWithoutKeyHappens`).
- A device-id post that fails in the acknowledging or compatible branch does not stop the device-auth entry, so a session can
  be ended twice (`SessionRuns.EndsOnce`, `SessionLimits.DoubleFaultHappens`).
- The raw code `SOFTBUS_AUTH_TIMEOUT` never reaches `AuthManagerSetAuthFailed`, because completion refines it first; the
  exemption that function makes for it is never taken (`SessionRuns.NoTimeoutAfterPass`).
- An early device-information payload of length 0 is not kept (`SessionRuns.EarlyInfoHandedOver`).
- A waiting session that falls back and enters the id exchange again sends at once (`SessionLimits.WaiterEntersAgain`,
  `NormalizeQueue.JumpingReleasesTwo`). It takes a repeated device id to make a waiting session fall back; where none
  repeats, the queue keeps single flight (`SharedTurns.SingleFlightHolds`).
- A verification for a link type the address comparison does not know fails and yet stays in the list
  (`Requests.VerifyDeviceTally`).
- Evicting an expired request that was in flight can leave younger ones waiting with nothing in flight
  (`RequestProgress.EvictionStrands`); `RequestProgress.ServedUnlessStranded` says exactly when.
- A link that has passed stays passed when its device is found at another address by its udid, and when a link other than
  Wi-Fi and USB gets a new connection (`Registry.PassCarriesOver`).
- The cache keeps the bind level a relation was first cached with (`UserKeys.LookupFindsRemembered`).
- The size check of frame packing does not notice a size that wraps; the bounded copy after it does
  (`Framing.PackCheckExactly`, `Framing.Pack`).

## Model

| member | source | states |
|---|---|---|
| `TwoParty.ReportsAgree` | core/authentication/src/auth_session_fsm.c:1524-1589 | in every interleaving of the two ends of a connection, over a network that may lose, repeat and reorder: when either end reports authentication passed, both have saved their session key, and the peer already has the reporter's device information (on Wi-Fi, USB and session-key links, when the peer is the server) |
| `TwoParty.ClientReportAgrees` | core/authentication/src/auth_session_fsm.c:1146-1170 | hence on every link a client's report means its peer has the client's device information, the udid-hash prefixes being different |
| `TwoParty.RolesAgree` | core/authentication/src/auth_session_fsm.c:993-1040 | once both ends have left negotiation exactly one of them is the server, the udid-hash prefixes being different |
| `TwoParty.NextSide` | core/authentication/src/auth_session_message.c:515-562 | what one event can do to one end: its start state changes only in negotiation and only as a packet its peer really sent justifies; everything received was sent |
| `DeliveredOnce.RolesAgreeOnce` | core/authentication/src/auth_session_fsm.c:993-1040 | on every network that delivers each device id at most once, losing and reordering as it likes: once both ends have left negotiation exactly one of them is the server, whatever the udid-hash prefixes |
| `DeliveredOnce.ClientReportAgreesOnce` | core/authentication/src/auth_session_fsm.c:1524-1589 | hence on such networks a client's report means its peer has the client's device information, on every link and without a condition on the hashes |
| `DeliveredOnce.WaiterHearsNothing` | core/authentication/src/auth_session_fsm.c:669-695 | while a session that decided to start waits for its turn to send, no device id is on its way in either direction or queued at either end, it is in the id exchange and has not gone back from device-auth: on such networks no waiting session enters the id exchange again |
| `DeliveredOnce.UndecidedTurns` | core/authentication/src/auth_session_fsm.c:1042-1069 | conservation in negotiation: with at most one packet queued, the device ids one event makes an undecided end post are paid for by the packets it takes from its queue or by its own start |
| `DeliveredOnce.OnlyAnswersLearn` | core/authentication/src/auth_session_message.c:515-562 | an undecided end changes its start state by answering a device-id packet and in no other way |
| `DeliveredOnce.AdvanceNetKeeps` | core/authentication/src/auth_session_fsm.c:993-1040 | every delivery, step, timeout and loss keeps the turn: while both ends are undecided at most one device id is on its way, queued or owed; a starter is heard only as a starter, and its peer never starts |
| `SessionLimits.EqualPrefixesDisagree` | core/authentication/src/auth_session_message.c:545-555 | with equal hash prefixes a repeated packet makes both ends the client, so the condition on prefixes is needed |
| `SharedTurns.SingleFlightHolds` | core/authentication/src/auth_session_fsm.c:669-695 | any number of sessions of one device, each over a network that delivers device ids at most once, share the turn-taking queue: in every run only the first living session queued for a peer has been released - with no condition on the order of events |
| `SharedTurns.OnlyOneReleased` | core/authentication/src/auth_normalize_request.c:48-217 | hence no two living sessions queued for one peer are both released |
| `SharedTurns.EnteringIsNoJump` | core/authentication/src/auth_session_fsm.c:683-693 | a session that enters the id exchange is not in the queue yet, or has been released, or is dead |
| `SharedTurns.SendsByTurn` | core/authentication/src/auth_session_fsm.c:656-693 | a starting session sends its first device id when it enters the id exchange or when it is woken, and in no other event |
| `SharedTurns.BackMarks` | core/authentication/src/auth_session_fsm.c:934-944 | device-auth goes back to the id exchange only by the fall-back |
| `SessionLimits.WaiterEntersAgain` | core/authentication/src/auth_session_fsm.c:934-944 | a run in which a repeated packet makes a waiting BLE client fall back, enter the id exchange a second time and send before its turn |
| `SessionLimits.ServerReportsFirst` | core/authentication/src/auth_session_fsm.c:1538-1562 | on a link that syncs by reply the server reports while its client has no device information yet, so there the agreement is the client's only |
| `SessionRuns.OkIsEarned` | core/authentication/src/auth_session_fsm.c:519-609 | after every run, a session that saved its key is completed with SOFTBUS_OK if and only if it was reported passed and was finished by HiChain or cut off by a disconnect; and a reported session is in sync-device-info, has both flags, has sent its information and has answered its peer |
| `SessionRuns.InfoIsAnswered` | core/authentication/src/auth_session_fsm.c:1524-1589 | after every run, a live session that received device information has answered it - with an acknowledgement, or on a link that syncs by reply with its information - and is reported as soon as it has both flags |
| `SessionSuccess.NegotiationSucceeds` | core/authentication/src/auth_session_fsm.c:993-1622 | authentication can succeed: from the start of every connection between negotiating peers, whichever hash is smaller, on every link that syncs information, some run ends with both sides holding a key, reported and completed successfully, in opposite roles |
| `SessionSuccess.OldPeerSucceeds` | core/authentication/src/auth_session_fsm.c:993-1622 | the same with a peer that does not negotiate |
| `SessionSuccess.AuthSucceeds` | core/authentication/src/auth_session_fsm.c:1270-1622 | the same from any two sessions in device-auth with opposite roles |
| `SessionDecisions.NegotiationDecides` | core/authentication/src/auth_session_message.c:515-562 | what a device-id packet does in negotiation, exactly: the start state the agreement asks for - by who started, by the smaller hash, by what is known - and the role, phase and reply that go with it |
| `SessionDecisions.BeginsAs` | core/authentication/src/auth_session_fsm.c:1775-1810 | role, start state, first phase and id type of a new session, each if and only if |
| `SessionDecisions.ExchangeDecides` | core/authentication/src/auth_session_fsm.c:961-991 | what the answer to a client's device id does: end, recovery of the key, one fall-back to udids, or HiChain; and exactly when the client gives up its turn |
| `SessionDecisions.WokenSends` | core/authentication/src/auth_session_fsm.c:656-667 | a woken client sends its device id once, or ends |
| `SessionDecisions.EndsExactly` | core/authentication/src/auth_session_fsm.c:1096-1589 | past the id exchange, which message ends a session and with which code: an exact table, both ways |
| `SessionDecisions.CommonEnds` | core/authentication/src/auth_session_fsm.c:573-609 | timeout, lost trust, disconnect and stop in every phase: the session ends with this code |
| `SessionDecisions.ExpireEnds` | core/authentication/src/auth_session_fsm.c:573-580 | a timeout that is due ends a live session with the code of its phase |
| `SessionDecisions.NotTrustedAnnounced` | core/authentication/src/auth_session_fsm.c:1172-1182 | a HiChain error that ends trust is announced to the peer's sessions exactly when the peer is known and online |
| `SessionDecisions.HichainIsCancelled` | core/authentication/src/auth_session_fsm.c:573-609 | a timeout, a lost trust relation and a lost link before both flags cancel HiChain |
| `SessionDecisions.MachineEnds` | core/bus_center/utils/src/lnn_state_machine.c:89-215 | a stop halts the machine, a deinit empties its queue, and neither handles anything after |
| `SessionDecisions.CompletionTells` | core/authentication/src/auth_session_fsm.c:519-564 | whom a completion tells what: the turn-taking queue success or failure with the code, the sibling session, the manager; a timeout is refined by phase |
| `SessionRuns.OkWithoutKey` | core/authentication/src/auth_session_fsm.c:1172-1182 | a session is completed with SOFTBUS_OK without a saved key exactly when HiChain reported an error numbered 0 |
| `SessionLimits.OkWithoutKeyHappens` | core/authentication/src/auth_session_fsm.c:1172-1182 | a run from creation that ends with SOFTBUS_OK and no key, for every accepting session |
| `SessionRuns.ErrorEndsOk` | core/authentication/src/auth_session_fsm.c:1172-1182 | in device-auth a HiChain error completes the session with SOFTBUS_OK exactly when it is 0 |
| `HichainError.OnlyZeroMapsToOk` | core/authentication/src/auth_hichain.c:161-183 | the error mapping yields 0 for error 0 only, over all 32-bit words |
| `HichainError.MappedFields` | core/authentication/src/auth_hichain.c:161-183 | which bits of an error are kept where in the softbus number |
| `HichainError.NotTrustedCodes` | core/authentication/src/auth_hichain.c:161-183 | which HiChain errors become "not trusted": exactly the common errors 0x5?04 and the softbus number itself |
| `SessionRuns.NoTimeoutAfterPass` | core/authentication/src/auth_session_fsm.c:1513-1589 | no run handles a timeout after it reported passed; a live session with both flags has reported and has no timeout pending; no session is completed with the raw timeout code |
| `SessionRuns.EarlyInfoHandedOver` | core/authentication/src/auth_session_fsm.c:1184-1198 | the last payload that arrived early is in the buffer until the key is saved and is then handed over exactly once with the buffer empty; only an empty payload is lost |
| `SessionRuns.KeyQueuesEarlyInfo` | core/authentication/src/auth_session_fsm.c:2083-2096 | saving the key puts the buffered payload, and nothing else, at the end of the looper queue |
| `SessionRuns.EndsOnce` | core/authentication/src/auth_session_fsm.c:519-571 | a session is completed or stopped once if it is dead and never otherwise; twice exactly when an event was the double fault |
| `SessionLimits.DoubleFaultHappens` | core/authentication/src/auth_session_fsm.c:1016-1039 | the double fault is reachable: a run that ends one session twice |
| `SessionRuns.DeadForGood` | core/authentication/src/auth_session_fsm.c:159-181 | no later event changes identity, flags, phase or log of a session that has ended |
| `SessionRuns.PhaseBudget` | core/authentication/src/auth_session_fsm.c:934-944 | a run changes phase at most five times, paid for by a rank that never grows, and falls back from device-auth to the id exchange at most once |
| `SessionRuns.PhasesDoNotReturn` | core/authentication/src/auth_session_fsm.c:993-1040 | negotiation is never entered again, role and start state are fixed once it is left, sync-device-info is never left |
| `SessionProgress.ClientIdType` | core/authentication/src/auth_session_json.c:1238-1280 | on a client the id type, once it is not a network id, stays or becomes the udid |
| `SessionProgress.NextGoes` | core/authentication/src/auth_session_fsm.c:1270-1302 | one event never raises the rank of a live session and ends it twice exactly on the double fault |
| `SessionInvariants.NextKeeps` | core/authentication/src/auth_session_fsm.c:573-1622 | every event keeps the session invariant: phase, flags, report, timer, early buffer, completion code and log agree |
| `SessionInvariants.CreateInv` | core/authentication/src/auth_session_fsm.c:1775-1810 | a session starts in the invariant |
| `SessionInputs.NegotiationHears` | core/authentication/src/auth_session_fsm.c:993-1040 | which start state a device-id packet justifies and which role and phase follow from it |
| `AuthFsm.AuthFsm.constructor` | core/authentication/src/auth_session_fsm.c:1775-1810 | a new session is valid, and is the session the run model starts from: role, id type, start state, first state, one pending timeout |
| `AuthFsm.AuthFsm.Handle` | core/bus_center/utils/src/lnn_state_machine.c:89-215 | start, stop, deinit and data messages of the state-machine library |
| `AuthFsm.AuthFsm.React` | core/authentication/src/auth_session_fsm.c:1679-1703 | one event on the object is one step of the run model; the object stays valid, its phase does not go back but for the one fallback, and once dead it does not change |
| `AuthFsm.Authenticate` | core/authentication/src/auth_session_fsm.c:159-215 | an object driven through any sequence of events: its fields and log have ended once if it is dead, twice exactly after a double fault; with a key it is completed successfully if and only if it was reported and finished or cut off; a reported object synced its information, has both flags and has answered; no timeout is handled or pending once it has reported |
| `RequestRuns.AnsweredExactlyOnce` | core/authentication/src/auth_request.c:38-195 | after every run each request ever submitted is either pending once and unanswered or answered exactly once and not pending; nothing else is pending or answered |
| `RequestRuns.AnsweredThroughItsCallback` | core/authentication/src/auth_request.c:238-277 | every answer of a run goes through the callbacks its caller filled in, and every failure carries an error |
| `RequestRuns.HandleTally` | core/authentication/src/auth_manager.c:873-932 | one event conserves requests: a submission adds its id once, everything else moves ids from pending to answered |
| `Requests.VerifyDeviceTally` | core/authentication/src/auth_device.c:539-575 | a submitted verification is accounted for exactly once if and only if its link type is one the comparison knows (or the listener is not registered) |
| `Requests.SwitchTally` | core/authentication/src/auth_manager.c:891-898 | the switch from a verify to a reconnect request under one id loses and duplicates nothing |
| `Requests.RejectTally` | core/authentication/src/auth_request.c:152-179 | rejecting an address tells everyone there but the caller |
| `Requests.AddTally` | core/authentication/src/auth_request.c:38-102 | adding a request, evictions included, adds one id to the account |
| `Requests.AddMeans` | core/authentication/src/auth_request.c:38-102 | the count returned is the number of same-kind, same-address requests that remain; those are young or the request itself; all others keep their places; those evicted, and nobody else, are told in list order that they failed to connect; the count is 0 exactly for unknown link types |
| `Requests.PassShrinks` | core/authentication/src/auth_manager.c:880-907 | each round of the drain takes one verify request off the list, whatever it re-adds |
| `Requests.DrainEmpties` | core/authentication/src/auth_manager.c:873-908 | on links whose addresses have one key the drain leaves no verify request for the address |
| `Requests.PassedEmpties` | core/authentication/src/auth_manager.c:873-908 | so when a request passed, no verify request for its address is left |
| `RequestProgress.ServedUnlessStranded` | core/authentication/src/auth_request.c:38-70 | in every run, from the empty list: the verify requests that wait at a one-key address always have one in flight - a connection or session started and not yet answered - if and only if no submission ever queues behind requests none of which is in flight |
| `RequestProgress.StrandsExpired` | core/authentication/src/auth_request.c:51-67 | at an address that has one in flight, such a submission is one that finds every request in flight expired and another one, not in flight, young enough to wait behind |
| `RequestProgress.ServedAfter` | core/authentication/src/auth_manager.c:873-932 | what one event does to an address, exactly: a submission there leaves one in flight unless it strands, a report about a request there always does, everything else leaves it as it was |
| `RequestProgress.FailureHandsOver` | core/authentication/src/auth_manager.c:910-932 | after a failure the verify requests left at the address have one in flight; requests at other addresses are not touched |
| `RequestProgress.VerifyServes` | core/authentication/src/auth_device.c:539-575 | a submitted verification leaves its address with one in flight exactly when it does not strand it |
| `RequestProgress.EvictionStrands` | core/authentication/src/auth_request.c:51-67 | a run from the empty list, on every known link: three callers twenty seconds apart, the first in flight and then evicted, the other two left waiting with nothing in flight |
| `RequestProgress.DrainLeavesTwoKeyRequest` | core/authentication/src/auth_common.c:296-341 | on BLE and on SLE the drain can leave a verify request for its own address with nothing in flight |
| `RequestAnswers.RunPassedAnswers` | core/authentication/src/auth_manager.c:873-908 | in every run: when a request passes, it and every verify request that leaves the list with it is told so - VerifyPassed, or Opened if its connection is kept or it is not the network builder's - or is in flight again under its id; OpenFailed goes only to network-builder requests that could not be reconnected or rebound, and nobody else is told anything but expired reconnects |
| `RequestAnswers.PassedAnswers` | core/authentication/src/auth_manager.c:873-908 | the same for every list |
| `RequestAnswers.FailedAnswers` | core/authentication/src/auth_manager.c:910-932 | when a request fails, it is told the reason, then those at its address that could not be connected are told so, one after the other; who is told is gone, who is not told stays |
| `RequestAnswers.ConnectedAnswers` | core/authentication/src/auth_manager.c:1178-1248 | a connection result: a reconnect is answered by how it went and is gone; a verification goes on with its session or fails |
| `RequestAnswers.VerifyAnswers` | core/authentication/src/auth_device.c:539-575 | a submitted verification: refused, waiting, in flight, or failed with everyone at its address; and the code returned in each case |
| `RequestAnswers.ReopenAnswers` | core/authentication/src/auth_device.c:616-651 | a reconnect for an authenticated device: refused, in flight, or taken off again |
| `RequestAnswers.OpenAnswers` | core/authentication/src/auth_device.c:665-712 | opening a connection by link type |
| `Addresses.CompareMeans` | core/authentication/src/auth_common.c:271-374 | per link type, when two addresses are the same peer |
| `Addresses.CompareSymmetric` | core/authentication/src/auth_common.c:271-374 | address comparison is symmetric, and reflexive exactly on the nine supported link types |
| `Addresses.CompareTransitive` | core/authentication/src/auth_common.c:271-374 | and transitive except on BLE and SLE |
| `Addresses.TwoKeysNotTransitive` | core/authentication/src/auth_common.c:296-341 | on BLE and SLE it is not transitive |
| `RequestList.RequestList.Get` | core/authentication/src/auth_request.c:104-118 | finds the first request with an id |
| `RequestList.RequestList.GetVerify` | core/authentication/src/auth_request.c:132-150 | finds the first verify request for an address |
| `RequestList.RequestList.Del` | core/authentication/src/auth_request.c:181-195 | removes the first request with an id |
| `RequestList.RequestList.Add` | core/authentication/src/auth_request.c:72-102 | the list and callbacks after adding, and the count returned |
| `RequestList.RequestList.GetWaitNum` | core/authentication/src/auth_request.c:38-70 | the scan that counts, evicts and collects |
| `RequestList.RequestList.FindAndDel` | core/authentication/src/auth_request.c:152-179 | the sweep over an address |
| `RequestList.RequestList.PerformConn` | core/authentication/src/auth_request.c:260-277 | the connection callback, nothing for an unknown request or one with the other callbacks |
| `RequestList.RequestList.PerformVerify` | core/authentication/src/auth_request.c:238-258 | the verify callback, nothing for an unknown request or one with the other callbacks |
| `RequestList.RequestList.ConnectAuthDevice` | core/authentication/src/auth_connection.c:793-845 | a session link reports its connection at once |
| `RequestList.RequestList.OnConnectResult` | core/authentication/src/auth_manager.c:1178-1248 | refines the connection result, reconnects included |
| `RequestList.RequestList.ReportFailed` | core/authentication/src/auth_manager.c:910-932 | the recursion answers and retries as its function says, and terminates |
| `RequestList.RequestList.VerifyDevice` | core/authentication/src/auth_device.c:539-575 | list, callbacks and code of a submitted verification |
| `RequestList.RequestList.StartReconnect` | core/authentication/src/auth_device.c:616-651 | list, callbacks and code of a reconnect |
| `RequestList.RequestList.PassOne` | core/authentication/src/auth_manager.c:880-906 | one round of the drain |
| `RequestList.RequestList.PassRest` | core/authentication/src/auth_manager.c:907 | the loop of the drain, which terminates |
| `RequestList.RequestList.ReportPassed` | core/authentication/src/auth_manager.c:873-908 | the drain |
| `NormalizeQueue.OneAtATime` | core/authentication/src/auth_normalize_request.c:48-217 | single flight: after any mix of entering, answering, success, failure, deletion and stopping, no two living sessions queued for one peer have both been released, unless one re-entered while waiting |
| `NormalizeQueue.OrderlyExactly` | core/authentication/src/auth_session_fsm.c:683-693 | a run keeps single flight throughout exactly when no waiting session re-enters the id exchange |
| `NormalizeQueue.NextFlight` | core/authentication/src/auth_session_fsm.c:538-556 | one event keeps single flight exactly when it is not such a re-entry |
| `NormalizeQueue.JumpingReleasesTwo` | core/authentication/src/auth_session_fsm.c:685 | the re-entry of a waiting session releases two |
| `NormalizeQueue.FailureWakes` | core/authentication/src/auth_normalize_request.c:197-217 | a failing session wakes its peer's queue whatever state the queue was in |
| `NormalizeQueue.DeletionStrands` | core/authentication/src/auth_normalize_request.c:118-134 | deleting or stopping a session leaves the queue awake exactly when it was not the first living one or no one living is behind it |
| `NormalizeQueue.JoiningKeepsAwake` | core/authentication/src/auth_normalize_request.c:153-171 | joining leaves the queue awake unless the newcomer is the only one living behind dead entries |
| `QueueEffects.SuccessWakes` | core/authentication/src/auth_normalize_request.c:173-195 | an answered device id and a successful end: every living session queued for the same peer is released, but for those on the same link if the peer negotiates; the peer's sessions leave the queue; nothing else changes |
| `QueueEffects.FailureReleasesNext` | core/authentication/src/auth_normalize_request.c:197-217 | a failing session leaves and the next living one of its peer, and no other, is released |
| `QueueEffects.EnteringMeans` | core/authentication/src/auth_session_fsm.c:683-693 | who is queued and who is released when a session enters |
| `QueueEffects.LeavingMeans` | core/authentication/src/auth_normalize_request.c:118-134 | a deleted session leaves, a stopped one dies in the queue; nobody is woken |
| `NormalizeList.NormalizeList.GetSameRequestNum` | core/authentication/src/auth_normalize_request.c:31-46 | counts the requests of one peer |
| `NormalizeList.NormalizeList.GetRequestList` | core/authentication/src/auth_normalize_request.c:48-79 | the array holds exactly the peer's requests in order and never overflows; the list is cleared of them on request |
| `NormalizeList.NormalizeList.FindAndDel` | core/authentication/src/auth_normalize_request.c:81-96 | finds and removes one session's request |
| `NormalizeList.NormalizeList.Delete` | core/authentication/src/auth_normalize_request.c:118-134 | removes one session's request |
| `NormalizeList.NormalizeList.IsRepeated` | core/authentication/src/auth_normalize_request.c:136-151 | says whether a session is queued |
| `NormalizeList.NormalizeList.Add` | core/authentication/src/auth_normalize_request.c:153-171 | appends and counts |
| `NormalizeList.NormalizeList.Enter` | core/authentication/src/auth_session_fsm.c:683-693 | who may send at once when entering the id exchange |
| `NormalizeList.NormalizeList.NotifySuccess` | core/authentication/src/auth_normalize_request.c:173-195 | clears the peer's queue and wakes all but same-link sessions |
| `NormalizeList.NormalizeList.NotifyFail` | core/authentication/src/auth_normalize_request.c:197-217 | wakes the first session it can reach |
| `Registry.RegistryHolds` | core/authentication/src/auth_manager.c:66-162 | after every sequence of operations with non-zero connection ids each manager is only in its side's list, has a live link, and each passed link has connection info of its own type and a connection |
| `Registry.DeleteRemovesLast` | core/authentication/src/auth_manager.c:125-162 | deleting a link removes the manager exactly when it was the last, and touches nothing else |
| `Registry.OneManagerPerDevice` | core/authentication/src/auth_manager.c:634-700 | if every peer supports normalisation neither side ever holds two managers for one udid |
| `Registry.SecondManagerExactly` | core/authentication/src/auth_manager.c:634-700 | one call keeps that exactly when the peer supports normalisation, or the address is known, or the device is not |
| `Registry.GetDeviceTouchesOneLink` | core/authentication/src/auth_manager.c:659-700 | looking a device up changes one link of one manager, and leaves it passed exactly when it was, but for a Wi-Fi or USB link at a known address whose connection is replaced |
| `Registry.PassCarriesOver` | core/authentication/src/auth_manager.c:634-656 | a link counts as passed for a connection or address that was not authenticated exactly when it was passed before and either a link of another type at a known address gets a new connection, or the device, known by udid only, is found at another address or connection |
| `Registry.PassCarriesOverHappens` | core/authentication/src/auth_manager.c:634-656 | an input on which it does |
| `RegistryEffects.PassedMeans` | core/authentication/src/auth_manager.c:996-1045 | marking passed: the first manager of that side at the address has its link passed, connection and info kept; everything else, and without an available key everything, stays |
| `RegistryEffects.ReceivedMeans` | core/authentication/src/auth_manager.c:1518-1567 | decrypted data: the first manager at the address, on the other side, has its link passed and bound to the connection; everything else stays |
| `RegistryEffects.GetDevicePicks` | core/authentication/src/auth_manager.c:634-700 | which manager a session gets and what its link becomes: known address, known device of a normalising peer, or new |
| `RegistryEffects.OnlineMeans` | core/authentication/src/auth_device.c:507-537 | going online and saving a BLE key off a connection pass the link of that manager |
| `RegistryEffects.KeyMeans` | core/authentication/src/auth_manager.c:795-843 | saving a key on a connection changes nothing more; one that cannot be stored takes away a link just made or merged |
| `RegistryEffects.SyncedMeans` | core/authentication/src/auth_manager.c:1047-1069 | a failed session invalidates the socket of the first manager at its address if that still is on its connection |
| `RegistryEffects.RemovedAtMeans` | core/authentication/src/auth_manager.c:338-353 | removal by address takes one link, and with the last link the manager |
| `RegistryEffects.RebindMeans` | core/authentication/src/auth_manager.c:259-295 | rebinding by id changes one connection id, clients before servers |
| `RegistryEffects.RemovedMeans` | core/authentication/src/auth_manager.c:323-336 | removal by id, clients before servers |
| `RegistryEffects.DisconnectedMeans` | core/authentication/src/auth_manager.c:1727-1760 | a lost connection: client and server found on it lose socket links, and SLE links that have a connection; other links stay |
| `RegistryEffects.RemoveNotPassedMeans` | core/authentication/src/auth_manager.c:365-389 | exactly the managers of a device without a passed link go; the rest stay in order |
| `RegistryEffects.HandlesMean` | core/authentication/src/auth_manager.c:2100-2173 | every handle belongs to an authenticated direct link, and every manager with one has exactly one |
| `Registry.First` | core/authentication/src/auth_manager.c:164-241 | the searches return the first match and nothing before it matches |
| `AuthManagers.AuthManagers.FindByAddr` | core/authentication/src/auth_manager.c:164-174 | search by address |
| `AuthManagers.AuthManagers.FindByUdid` | core/authentication/src/auth_manager.c:200-210 | search by device |
| `AuthManagers.AuthManagers.FindById` | core/authentication/src/auth_manager.c:212-228 | search by manager id |
| `AuthManagers.AuthManagers.GetAuthIdByConnId` | core/authentication/src/auth_manager.c:230-241 | search by connection id |
| `AuthManagers.AuthManagers.DelAuthManager` | core/authentication/src/auth_manager.c:125-162 | clears a link and looks for another before it removes the manager |
| `AuthManagers.AuthManagers.GetDeviceAuthManager` | core/authentication/src/auth_manager.c:634-700 | finds, merges or creates the manager of a session |
| `AuthManagers.AuthManagers.SetSessionKey` | core/authentication/src/auth_manager.c:795-843 | saving a key, undone when the key cannot be stored |
| `AuthManagers.AuthManagers.SetAuthPassed` | core/authentication/src/auth_manager.c:996-1045 | marks a link passed |
| `AuthManagers.AuthManagers.DirectOnline` | core/authentication/src/auth_device.c:507-537 | creates a BLE manager without a key |
| `AuthManagers.AuthManagers.DataReceived` | core/authentication/src/auth_manager.c:1518-1567 | decrypted data marks the link passed and rebinds it |
| `AuthManagers.AuthManagers.SyncConnId` | core/authentication/src/auth_manager.c:1047-1069 | invalidates the socket of a failed link whose packed type is Wi-Fi or USB |
| `AuthManagers.AuthManagers.RemoveByAddr` | core/authentication/src/auth_manager.c:338-353 | removal by address |
| `AuthManagers.AuthManagers.SetConnId` | core/authentication/src/auth_manager.c:259-295 | rebinding by manager id |
| `AuthManagers.AuthManagers.RemoveById` | core/authentication/src/auth_manager.c:323-336 | removal by manager id |
| `AuthManagers.AuthManagers.Disconnected` | core/authentication/src/auth_manager.c:1727-1760 | a lost connection on both sides |
| `AuthManagers.AuthManagers.RemoveNotPassed` | core/authentication/src/auth_manager.c:365-389 | removal of a device's managers that never passed |
| `AuthManagers.AuthManagers.CountDirect` | core/authentication/src/auth_manager.c:2121-2142 | counts managers with a direct link |
| `AuthManagers.AuthManagers.FillAuthHandleList` | core/authentication/src/auth_manager.c:2100-2119 | fills the counted array in bounds |
| `AuthManagers.AuthManagers.GetHmlOrP2pAuthHandle` | core/authentication/src/auth_manager.c:2144-2173 | the array holds one handle per such manager, servers first |
| `SeqNumbers.EpochDistinct` | core/authentication/src/auth_common.c:240-254 | the 2^23 numbers of an epoch are pairwise distinct through the wrap, also truncated to the 32-bit key index |
| `SeqNumbers.EpochLength` | core/authentication/src/auth_common.c:240-254 | an epoch is exactly 2^23 calls long |
| `SeqNumbers.TopBits` | core/authentication/src/auth_common.c:221-254 | the top 40 bits are the identity and time of the latest successful refresh, after any number of refreshes |
| `SeqNumbers.RefreshForgets` | core/authentication/src/auth_common.c:221-238 | a refresh determines those bits whatever was there before |
| `SeqNumbers.ParityTellsSide` | core/authentication/src/auth_connection.c:633 | the receiver's signed remainder recovers the sender's side |
| `SeqNumbers.ShiftIsPush` | core/authentication/src/auth_common.c:233-237 | shifting a byte into a 64-bit word is the arithmetic the model uses, on every word |
| `SeqNumbers.OrIsPlus` | core/authentication/src/auth_common.c:252 | and so is composing the number by shift and or |
| `SeqNumbers.Generator.UpdateUniqueId` | core/authentication/src/auth_common.c:221-238 | the byte loop shifts in hash and time stamp |
| `SeqNumbers.Generator.GenSeq` | core/authentication/src/auth_common.c:240-254 | refines one call |
| `ConnIds.ConnIdRoundTrip` | core/authentication/src/auth_connection.c:79-127 | type and id come back for every pair of int32 values |
| `ConnIds.ConnIdIsItsHalves` | core/authentication/src/auth_connection.c:79-127 | every word is the packing of its halves |
| `ConnIds.ConnIdInjective` | core/authentication/src/auth_connection.c:79-85 | packing is injective |
| `ConnIds.GenIsNumbers` | core/authentication/src/auth_connection.c:79-85 | packing by sign extension, shift and masks is the arithmetic the model uses, on every bit pattern |
| `ConnIds.GetIsNumbers` | core/authentication/src/auth_connection.c:87-127 | and so is unpacking |
| `ConnIds.UpdateIsNumbers` | core/authentication/src/auth_connection.c:129-134 | and so is replacing the id half |
| `ConnIds.UpdateFd` | core/authentication/src/auth_connection.c:129-134 | only the id half changes, so an id with a link type stays non-zero |
| `ConnIds.TypedIsNotZero` | core/authentication/src/auth_connection.c:79-85 | an id with a link type is non-zero |
| `Framing.FrameRoundTrip` | core/authentication/src/auth_connection.c:218-275 | a packed frame is unpacked to the same header and body, whatever follows it |
| `Framing.EncodeBytes` | core/authentication/src/auth_connection.c:234-244 | which bytes of the header are which field, little endian |
| `Framing.DecodeBytes` | core/authentication/src/auth_connection.c:258-268 | and the same for the header that is read |
| `Framing.WrapCheckIsComplete` | core/authentication/src/auth_connection.c:269-273 | the uint32 comparison with its wrap check is the comparison of the true sizes |
| `Framing.PackCheckExactly` | core/authentication/src/auth_connection.c:218-232 | the size check of packing, which has no wrap check, passes a frame that does not fit exactly when its size wraps below the buffer's |
| `Framing.Pack` | core/authentication/src/auth_connection.c:223-250 | succeeds exactly when header and payload truly fit, and then writes both; a wrapped size that passes the check ends in a memory error with the header written; otherwise nothing is written |
| `Framing.Unpack` | core/authentication/src/auth_connection.c:252-275 | accepts a buffer exactly when 24 plus the header's length fits in it |
| `UserKeys.KeyOnLocalEnd` | core/authentication/src/auth_deviceprofile.cpp:841-884 | for every profile list and either role, a new key id is written on the local end of exactly the profiles whose ends belong to the two parties - devices and users, and accounts, user level or tokens as asked - and nowhere else |
| `UserKeys.MatchMeans` | core/authentication/src/auth_deviceprofile.cpp:510-623 | which profiles match a relation, and which of their ends is the local one |
| `UserKeys.CachedMeans` | core/authentication/src/auth_deviceprofile.cpp:841-884 | what the profiles leave in the cache: the new key as the one key of the relation if a profile matched and a key is stored, nothing new otherwise |
| `UserKeys.LookupMeans` | core/authentication/userkey/auth_user_common_key.c:173-275 | a lookup gives the key of the first item that agrees - devices and users on either side, and tokens, accounts or user level as asked - and nothing exactly when none does |
| `UserKeys.RoleDoesNotMatter` | core/authentication/src/auth_deviceprofile.cpp:510-623 | the same relation seen in the other role writes the same ends |
| `UserKeys.CacheStaysCanonical` | core/authentication/src/auth_deviceprofile.cpp:625-666 | after every run each cached relation is in canonical form and cached once |
| `UserKeys.RememberMeans` | core/authentication/userkey/auth_user_common_key.c:85-133 | a key remembered is the one key of its relation; all other relations keep theirs |
| `UserKeys.ForgetMeans` | core/authentication/userkey/auth_user_common_key.c:135-171 | deleting by peer removes every key for that peer, whichever side negotiated it, and no other |
| `UserKeys.RememberThenForget` | core/authentication/userkey/auth_user_common_key.c:85-171 | remembering a key and forgetting its peer leaves what forgetting alone leaves |
| `UserKeys.LookupFindsRemembered` | core/authentication/userkey/auth_user_common_key.c:85-275 | a lookup for the relation a new key was remembered for finds that key exactly when the relation's entry answers it, with the bind level it was first cached with, and no entry before it does |
| `UserKeys.FirstLevelStays` | core/authentication/userkey/auth_user_common_key.c:104-117 | so a key remembered at user level for a relation first cached below it is not found at user level |
| `UserKeys.LookupEitherRole` | core/authentication/userkey/auth_uk_manager.c:412-524 | a lookup gives the same answer in either role |
| `UserKeyStore.UserKeyCache.AuthInsertUserKey` | core/authentication/userkey/auth_user_common_key.c:85-133 | overwrites or prepends, keeping the count |
| `UserKeyStore.UserKeyCache.InsertUserKeyToUKCache` | core/authentication/src/auth_deviceprofile.cpp:625-666 | stores the canonical form of a relation |
| `UserKeyStore.UserKeyCache.DelUserKey` | core/authentication/userkey/auth_user_common_key.c:135-171 | removes a peer's keys, keeping the count |
| `UserKeyStore.UserKeyCache.GetUserKeyInfo` | core/authentication/userkey/auth_user_common_key.c:173-275 | the three lookups |
| `UserKeyStore.ProfileStore.UpdateDpAclByAuthAcl` | core/authentication/src/auth_deviceprofile.cpp:841-884 | profiles, cache and result of an update |
| `UserKeyStore.ProfileStore.WriteOne` | core/authentication/src/auth_deviceprofile.cpp:856-875 | one profile |

## Left out

- Pre-link nodes and the PTK callback of a session: the callback acts on a session without asking whether it is dead and
  depends on code outside this repository.
- The field-by-field packing of device ids and device information: only what the handlers read of a device-id packet is
  modelled; whether a packet can be unpacked is a parameter.
- The contents of session keys and the session-key list: a failed key store is only logged by the session, so `KeySaved` says
  the message was handled, not that the key was kept.
- Latest-manager lookups (`GetActiveAuthIdByConnInfo`, `GetLatestIdByConnInfo`): their result is the parameter `active`.
- `ClearAuthRequest` and `DestroyAuthManagerList`: shutdown.
- Connection timeouts, sockets, sending and encryption: a connection attempt's result is a parameter.
- Managers and list items are values held in sequences: aliasing between a list and the pointers into it is not captured.
- A failed write of a profile back to the profile service: the model's profile store always takes the write.
- Framing.Pack: for a payload within 24 bytes of 2^32, whose size wraps, it requires a buffer that holds the header if the
  wrapped size passes the check; what the failing copy leaves behind the header is not stated, and copying a payload that
  fits is taken to succeed.
- RequestProgress.ServedUnlessStranded: stated for addresses with one key; on BLE and SLE the drain can leave a request
  with nothing in flight too (`RequestProgress.DrainLeavesTwoKeyRequest`).
- SharedTurns.SingleFlightHolds: for networks that deliver device ids at most once; on one that repeats them it fails
  (`SessionLimits.WaiterEntersAgain`). Answers, failures and ends reach the queue at any time and in any order, which
  covers the order in which the sessions cause them.
- TwoParty.RolesAgree: stated for different hash prefixes, because with equal ones it fails on a network that repeats packets
  (`SessionLimits.EqualPrefixesDisagree`); where none repeats, `DeliveredOnce.RolesAgreeOnce` needs no condition.
- Dump, logging, event and audit reporting, and the registration of listeners: they report what the modelled parts do and
  decide nothing in it.
