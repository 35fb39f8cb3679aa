# A verified model of ement-e2ee

ement-e2ee is a proxy between a Matrix client that knows nothing of encryption and its
homeserver. The cryptography is a library's; the proxy's own work is the protocol around
it, and that is what this project models in Dafny and proves properties of:

- **Late keys** (`RepairQueue`, `RepairRuns`, `Edits`, `Inject`, `SyncBody`, `WakeUp`,
  `Deliveries`): an event that cannot be decrypted is shown as a placeholder and remembered;
  when its key arrives, the client is sent an edit that turns the placeholder into the message.
- **Syncs** (`SeenToDevice`, `SyncRuns`): to-device events reach the crypto library once
  although the homeserver repeats them, and the client's position in the timeline skips and
  repeats nothing.
- **Devices** (`Identity`, `Login`): that no device is given second identity keys, over
  logins, sign-outs, deleted stores and restarts; and how a login's device is chosen.
- **Encryption** (`Rooms`, `RoomRuns`): which rooms are encrypted, and what a send puts on the wire.
- **Round trips** (`Percent`, `Routes`, `Media`): paths and their percent-encoding;
  attachments and their keys.
- **Key requests and the pump** (`KeyRequests`, `Pump`), and the log of **finished
  verification flows** (`Verification`).

What the code changes in place is a class whose methods are proved against functions on
values (`Track`, `AfterTake`, `Received`, `Record`, `Mark`, ...). The protocols are state
machines over those same functions: a `Step` datatype, `Enabled`, `Next`, and runs of any
length in any interleaving. `Seqs` and `Json` hold what they share. The crypto library, the
homeserver and the file system are answers that the methods and steps take as parameters,
so each theorem holds for whatever they answer.

## What does not hold

Where the code does not do what one would expect of it, the model keeps the code's behaviour
and proves exactly when the expectation is met.

- A repair that is put back while its event is pending again leaves the event in the order
  twice. Order and entries stay in step exactly where that does not happen
  (`RepairRuns.ConsistentExactlyWhen`, `RepairRuns.RetrackBreaksOrder`).
- A placeholder that is ready when the very response delivers it again leaves the queue,
  even if its key is still missing: it stays exactly if it was not ready
  (`SyncBody.DeliveredStaysPendingExactlyIf`, `SyncBody.RedeliveredWhileReadyIsLost`).
- A placeholder that is delivered again while pending keeps its old place in the queue. It
  is forgotten once 2000 places are behind that one, even if it was just shown with the
  promise of an update
  (`SyncBody.DeliveredPendsExactlyIf`, `SyncBody.DeliveredAgainIsForgotten`).
- A lookup of a room's encryption state that hears "not found" after a scan has marked the
  room as encrypted, whether or not its settings are persisted by then, puts the room into
  the negative cache beside its settings, and the sends that follow go out plain
  (`RoomRuns.DisjointExactlyWhen`, `RoomRuns.LateDenialSendsPlain`,
  `RoomRuns.DenialBeforePersistSendsPlain`). With settings persisted, the sends that begin at
  any point of a run stay encrypted exactly if no lookup of that room hears "not found" in it
  (`RoomRuns.EncryptionIsStickyExactlyIf`, `RoomRuns.StaysEncryptedExactlyWhen`). A send whose room was found unencrypted before
  that is forwarded plain even after it (`RoomRuns.DecidedBeforeGoesPlain`).
- The messages of in-room verification that the library queues itself go out with the pump,
  which does not look at the room and sends their content plain
  (src/crypto/machine.rs:189-198). Encryption of sends is about the clients' own and those of
  src/crypto/encrypt.rs:160-185.
- A repair leaves the queue when a handler takes it, not when the client has its edit. If the
  client hangs up on the handler, or the response is lost or comes too late, the edit is gone
  until the event is delivered as a placeholder again (`Deliveries.LostExactlyIfCutOff`,
  `Deliveries.MayArriveExactlyIfUnderway`).
- A login that names no user is forwarded with the client's own device ID. If that device
  was published once, and neither its store nor its published keys are left, it gets second
  keys (`Identity.LoginIsSafeExactlyIfCareful`, `Identity.ForeignLoginLeadsToTwoKeys`).
- The same happens if a store is deleted while a token of its device is valid and the
  homeserver has lost the device's keys (`Identity.DeletionIsSafeExactlyIfCareful`,
  `Identity.CarelessDeletionIsReached`).
- A sync whose client hangs up while new to-device events are being processed leaves them
  remembered but not handed over, however much else is remembered; when the client asks again they count as repeats, and the
  crypto library never gets them (`SyncRuns.HangingUpIsSafeExactlyIf`,
  `SyncRuns.CuttingOffIsReached`).
- A section that holds off syncs, ends a flow and fails before it records what has ended
  loses the flow, unless someone records it before the next sync
  (`Verification.FinishedFlowsAreKeptExactlyWhen`, `Verification.FailedSectionLosesFlow`).

## Model

| member | source | states |
|---|---|---|
| `RepairQueue.RepairQueue.AddPlaceholder` | src/crypto/repair.rs:66-89 | an event without an ID or already pending changes nothing; any other is stored under its ID at the end of the order, and the oldest are forgotten |
| `RepairQueue.RepairQueue.NoteRoomKeys` | src/crypto/repair.rs:92-104 | keys are remembered and the waiters woken if they make something ready, else forgotten |
| `RepairQueue.RepairQueue.NoteBulkImport` | src/crypto/repair.rs:107-114 | everything pending becomes ready and the waiters are woken; nothing happens to an empty queue |
| `RepairQueue.RepairQueue.HasReady` | src/crypto/repair.rs:116-118 | true exactly if a pending event's session has been noted, or anything is pending after a bulk import |
| `RepairQueue.RepairQueue.TakeReady` | src/crypto/repair.rs:126-151 | hands out exactly the pending events whose session has been noted, or all after a bulk import; what it hands out and leaves is what `Taken` and `AfterTake` say, of which `TakePartition` is proved |
| `RepairQueue.RepairQueue.PutBack` | src/crypto/repair.rs:154-158 | the repair is pending again at the end of the order, unchecked |
| `RepairQueue.TrimIsLast` | src/crypto/repair.rs:84-88 | forgetting the oldest leaves the newest 2000 places and the entries of all but the forgotten ones |
| `RepairQueue.TrackKeeps` | src/crypto/repair.rs:66-89 | a track keeps every entry in the order under its own ID, and order and entries in step if they were |
| `RepairQueue.TrackBounds` | src/crypto/repair.rs:66-89 | after an inserting track the order has at most 2000 places with the new event last; the event is pending if and only if no older place of its own is among those forgotten, so always with order and entries in step; whatever else is pending was so before, unchanged; a second track of a pending event changes nothing |
| `RepairQueue.TakePartition` | src/crypto/repair.rs:126-151 | in any interleaving the taken repairs are the ready ones, each once, oldest first; the others keep their order and entries; nothing is ready afterwards and both marks are cleared |
| `RepairQueue.TakeConsistent` | src/crypto/repair.rs:126-151 | with order and entries in step, the taken repairs are the ready places in arrival order, and the rest stays in step |
| `RepairQueue.RequeueConsistent` | src/crypto/repair.rs:154-158 | putting a repair back keeps order and entries in step if and only if its event is not pending |
| `RepairQueue.NotesWake` | src/crypto/repair.rs:92-114 | a note wakes waiters if and only if it leaves something ready; one that wakes nobody leaves no key behind; every pending event of a noted session becomes ready |
| `RepairQueue.NotesAreExact` | src/crypto/repair.rs:92-114 | a note of keys makes ready just the pending events of the sessions it names, beside those that were ready, and a bulk import all of them; either wakes the waiters once if something is ready, else not at all, and leaves entries, order and the other mark alone |
| `RepairRuns.AlwaysCovered` | src/crypto/repair.rs:66-158 | in every interleaving of requests, every pending event has a place in the order and is stored under its own ID |
| `RepairRuns.ConsistentExactlyWhen` | src/crypto/repair.rs:66-158 | the order lists the pending events, each once, in every state of a run if and only if no repair is put back while its event is pending |
| `RepairRuns.NoRetrackKeepsConsistent` | src/crypto/repair.rs:126-158 | where no event in flight is tracked again, order and entries stay in step and no event is in flight twice or both in flight and pending |
| `RepairRuns.RetrackBreaksOrder` | src/crypto/repair.rs:154-158 | from any state with one ready repair: take, track again, put back leaves the event in the order twice |
| `RepairRuns.Remembered` | src/crypto/repair.rs:66-158 | in every interleaving, a pending placeholder with one place in the order that no take finds ready, and that is not put back meanwhile, stays pending, unchanged, until 2000 places have been added behind it |
| `Edits.PlaceholderField` | src/crypto/decrypt.rs:260-294 | a placeholder has the envelope's ID, sender, time and room, and no other part of it but `unsigned`; no ciphertext |
| `Edits.PlaceholderUnsigned` | src/crypto/decrypt.rs:281-293 | all unsigned data survives, with the transaction ID, and the marker names the missing session |
| `Edits.PlaceholderPromises` | src/crypto/decrypt.rs:266-277 | the text holds the reason, and ends in the promise of an update if and only if the placeholder is repairable |
| `Edits.MergeKeeps` | src/crypto/decrypt.rs:170-192 | merging touches only `unsigned`: the decrypted event's entries win, the envelope's others survive, the marker holds the encryption info |
| `Edits.MergeExists` | src/crypto/decrypt.rs:171-192 | there is a merged event exactly if the plaintext is an object; its marker says that it was decrypted; an `unsigned` that is no object stays |
| `Edits.EditExists` | src/crypto/repair.rs:253-283 | an event has an edit if and only if it has an ID, a type, and for a message a content to show |
| `Edits.EditIsValid` | src/crypto/repair.rs:253-316 | the edit is a valid replacement for the event's placeholder by the rules of section "Event replacements" of the Matrix Client-Server API |
| `Edits.EditKeepsReply` | src/crypto/repair.rs:284-316 | of its relation the edit keeps the reply alone, the new content has none and stands at top level too, and ID, sender and time are the event's |
| `Edits.EditKeepsMarker` | src/crypto/repair.rs:298-302 | the edit's marker is the decrypted event's and names the event it repairs |
| `Edits.EditTurnsPlaceholderIntoMessage` | src/crypto/repair.rs:253-316 | applying the edit to the placeholder by that section gives the shown content under the event's own ID, sender and time |
| `Edits.MessageIsShownAsSent` | src/crypto/repair.rs:257-268 | for a message that is no edit, that content is its own, without the relation |
| `Edits.MessageShows` | src/crypto/repair.rs:257-268 | a message is shown by its new content exactly if it is an edit that has one, and else by its content, also an edit without one |
| `Edits.EditIsShownAsItsResult` | src/crypto/repair.rs:257-268 | for a message that edits another, that content is the one its target gets when the edit is applied to it, without the target's own relation |
| `Edits.OtherEventIsANotice` | src/crypto/repair.rs:269-281 | for any other event it is a notice that names the event's type, or the reaction's key |
| `Inject.InjectRepairs` | src/crypto/repair.rs:173-201 | the loop leaves response, queue and count as `Injected` says, of which `InjectConserves` is proved |
| `Inject.Pushed` | src/crypto/repair.rs:217-247 | a push appends one event to one room, with a new entry of the last unread counts if the response has none, and changes nothing else |
| `Inject.OneByFate` | src/crypto/repair.rs:182-199 | each repair is treated by its own fate, whichever repairs went before it |
| `Inject.InjectConserves` | src/crypto/repair.rs:173-201 | each taken repair has exactly one of five fates; every room gains exactly its edits, at the end and in order; the rest of the response is unchanged; the count is the number of edits; those without a key are back in the order |
| `Inject.InjectKeepsQueue` | src/crypto/repair.rs:173-201 | with order and entries in step, afterwards they still are, and pending are exactly the events that were not ready and, as the very repairs taken, those whose key was not there |
| `Inject.DeliveredAre` | src/crypto/repair.rs:203-215 | taken for delivered are just the IDs in the timelines of joined rooms |
| `Inject.FateIs` | src/crypto/repair.rs:182-199 | a repair that the response does not hold is put back exactly if it cannot be decrypted, and its edit appended exactly if it has one and the response has the room or the client is in it |
| `Inject.TakenRepairArrives` | src/crypto/repair.rs:173-201 | the edit of each taken repair of that kind is in its room's timeline in the end |
| `Inject.NewEntryIs` | src/crypto/repair.rs:224-237 | an entry made for a room holds its edits, the unread counts the client was given last, if any, `limited` false, and nothing else |
| `SyncBody.DecryptEvent` | src/crypto/decrypt.rs:211-235 | by the library's answer: the plaintext's own fields with its content harvested and its unsigned data over the envelope's, or the placeholder, which alone is tracked, or the event itself |
| `SyncBody.RewriteShows` | src/crypto/decrypt.rs:140-235 | the same of the function that the other results use |
| `SyncBody.DecryptorDecrypts` | src/crypto/repair.rs:186-191 | a repair is decrypted exactly if the library now gives an object for its event, and to what a delivery would show |
| `SyncBody.PlacedLackKeys` | src/crypto/decrypt.rs:218-232 | tracked are exactly the encrypted events that the library has no key for, with the session it names |
| `SyncBody.DecryptEvents` | src/crypto/decrypt.rs:118-122 | every event is rewritten and the placeholders are tracked in order |
| `SyncBody.ProcessSyncBody` | src/crypto/decrypt.rs:26-60 | joined and left rooms are rewritten; their placeholders are tracked, room by room and within a room in order, each as often as it is delivered; of each room the tracker knows just what the room's own entries add, in whatever order rooms come; then repairs are injected |
| `SyncBody.ResponseShows` | src/crypto/decrypt.rs:26-60 | every event of a joined or left room is shown by the library's answer, in its place; of those rooms' entries only the timelines' events change, and of the response nothing else |
| `SyncBody.NoteRoomLearns` | src/crypto/decrypt.rs:37-50 | one room's entry teaches the tracker the accepted settings of its state and timeline, ends the negative cache by any, and gives a joined room its unread counts |
| `SyncBody.NotedJoins` | src/crypto/decrypt.rs:41-46 | after a response the client is in the rooms it was in and those it names as joined, without those it names as left |
| `SyncBody.RewriteKeepsId` | src/crypto/decrypt.rs:140-235 | rewriting keeps an event's ID and leaves unencrypted events alone |
| `SyncBody.TimelineOneToOne` | src/crypto/decrypt.rs:26-60 | each joined room's timeline keeps its event IDs and their order, only encrypted events change, and after them come only repairing edits |
| `SyncBody.LeftTimelineOneToOne` | src/crypto/decrypt.rs:26-60 | each left room's timeline likewise, with nothing after it |
| `SyncBody.TrackAllOrder` | src/crypto/repair.rs:66-89 | tracking a series of placeholders keeps the newest 2000 of the old places and the new, in any state of the queue, and keeps order and entries in step if they were |
| `RepairQueue.TrackOnePlace` | src/crypto/repair.rs:66-89 | an event with one place in the order if it is pending, and none if not, stays so when any events are tracked, in any queue |
| `RepairQueue.ConsistentOnePlace` | src/crypto/repair.rs:66-89 | with order and entries in step that is so of every event |
| `SyncBody.DeliveredPendsExactlyIf` | src/crypto/repair.rs:66-89 | for an event with one place if pending and none if not, in any queue: just before injection its delivered placeholder is pending if and only if nothing was newly queued or fewer than 2000 places are behind its newest one, among the old places and the new |
| `SyncBody.NewestQueuedPend` | src/crypto/repair.rs:66-89 | of the placeholders newly queued, each of the newest 2000 that had no stale place before is pending just before injection |
| `SyncBody.DeliveredAgainIsForgotten` | src/crypto/repair.rs:71-88 | with a full queue, a placeholder in the oldest place that is delivered again is forgotten when the next one is new |
| `SyncBody.DeliveredStaysPendingExactlyIf` | src/crypto/repair.rs:178-185 | in every interleaving, a pending event that the response delivers stays pending if and only if it was not ready |
| `SyncBody.RedeliveredWhileReadyIsLost` | src/crypto/repair.rs:178-185 | an event that is ready, and that the response delivers undecrypted once more, is shown as a repairable placeholder and no longer pending |
| `WakeUp.NoLostWakeUp` | src/crypto/sync.rs:130-155 | in every interleaving a parked sync that will not fire overlooks no ready repair but those that were inserted after it looked |
| `WakeUp.NoteReachesListeners` | src/crypto/repair.rs:92-114 | a note that leaves something ready reaches each sync that has enabled its waiter, whatever others do before its next move: parked, it fires; not yet parked, it sees the repair or fires at once |
| `WakeUp.LookThenListenLoses` | src/crypto/sync.rs:130-134 | looking first and listening after would lose a note that comes in between |
| `SeenToDevice.SeenEvents.Remember` | src/crypto/sync.rs:64-75 | answers whether the key is new; a new one is remembered last and the oldest dropped beyond 4096; set and order hold the same keys |
| `SeenToDevice.SeenEvents.Forget` | src/crypto/sync.rs:77-81 | removes the key and keeps the rest in order |
| `SeenToDevice.SeenEvents.ReceiveSyncChanges` | src/crypto/sync.rs:225-274 | hands over exactly the new events in order; a success updates the counters, a failure takes back exactly the new keys |
| `SeenToDevice.AfterAllIsLast` | src/crypto/sync.rs:63-75 | after any batch the memory is the newest 4096 of what it was and the new keys, without repeats |
| `SeenToDevice.RollbackForgetsBatch` | src/crypto/sync.rs:244-271 | after a failed batch of any size the memory is a suffix of what it was, short only by what the batch pushed out, with none of the new keys |
| `SeenToDevice.HandedOverOnce` | src/crypto/sync.rs:225-274 | in every run, an event handed over in a successful batch is not handed over again within 4096 hand-overs, failed ones included |
| `SeenToDevice.WithoutFailuresNewest` | src/crypto/sync.rs:63-75 | where no batch fails the memory is the newest 4096 of all hand-overs |
| `SeenToDevice.FailedIsLetThrough` | src/crypto/sync.rs:269-271 | an event of a failed batch is let through on its next delivery, whatever comes between |
| `SyncRuns.CursorIsSafe` | src/crypto/sync.rs:117-210 | under every mix of syncs, repairs, failures, lost, late and cut off responses and restarts: the client has accepted exactly the homeserver's timeline up to its position |
| `SyncRuns.TakenOnce` | src/crypto/sync.rs:225-274 | in all those runs, since the proxy started no event of a batch that was not rolled back is taken for new again within 4096 such events |
| `SyncRuns.SyncIsSafe` | src/crypto/sync.rs:117-274 | where no new events are cut off, every to-device event the client has moved past was handed over successfully |
| `SyncRuns.HangingUpIsSafeExactlyIf` | src/crypto/sync.rs:244-257 | a client that hangs up while a response with at most 4096 to-device events is processed costs no event in any run that follows, whatever is remembered, if and only if the response had nothing new that was not handed over before |
| `SyncRuns.CuttingOffIsReached` | src/crypto/sync.rs:244-257 | a run from the start leads to where it costs one |
| `Deliveries.MayArriveExactlyIfUnderway` | src/crypto/repair.rs:126-201 | over all runs in which an event is not delivered as a placeholder anew, its edit may still reach the client if and only if the event is pending or a handler has its repair or its edit |
| `Deliveries.LostExactlyIfCutOff` | src/crypto/repair.rs:173-201 | of a repair that one handler has taken, a step ends every chance if and only if it cuts the handler or its response off, delivers the response, or settles the repair without an edit; a delivered response brings the edit |
| `Deliveries.ReadyCanBeLost` | src/crypto/repair.rs:173-201 | every ready event can be lost so: taken, and its handler cut off |
| `SyncRuns.AnswerCovers` | src/crypto/sync.rs:229-234 | whatever an answer no longer carries, because it was acknowledged, has been handed over |
| `SyncRuns.RepairOnlyConsumesNothing` | src/crypto/sync.rs:195-210 | delivering a repair-only response moves no position and adds only edits |
| `Identity.SessionManager.Insert` | src/session.rs:131-246 | a known token keeps its session; otherwise a session opens, is refused, put off or fails by the table over store and published key, with the session map and the list of refusals as they then are; it is the `Admit` of the runs |
| `Identity.SessionManager.Refuse` | src/session.rs:54-61 | the conflict is listed last in place of any other of its device, the rest in order |
| `Identity.RemovedIsAdmittedAnew` | src/session.rs:71-73 | after its removal a token is admitted as if it had never had a session, and no other token's session or admission changes |
| `Identity.SessionsEnd` | src/session.rs:71-73 | in the runs too an eviction ends one session, a restart all, and nothing else any |
| `Identity.RetainIs` | src/session.rs:54-61 | filtering the refusals keeps exactly those wanted, and no device twice |
| `Identity.RetainKeepsOrder` | src/session.rs:54-61 | and their order is kept |
| `Identity.DecideIsCautious` | src/session.rs:154-193 | new keys only where the homeserver is known to publish none; refused exactly over keys known to differ; published again exactly where known to be missing |
| `Identity.UploadsReplaceNoKey` | src/session.rs:131-246 | in every run, whatever device each login asks for, when the proxy can upload a device's keys the homeserver publishes none or the same for that device |
| `Identity.NoDeviceHasTwoKeys` | src/session.rs:131-246 | where stores are deleted and devices logged in to with care, no device ever has two published keys |
| `Identity.ChosenLoginIsCareful` | src/crypto/device.rs:80-93 | a login for which the homeserver picks a fresh device ID, or on a device that has its store, is careful |
| `Identity.LoginIsSafeExactlyIfCareful` | src/crypto/device.rs:69-78 | a login is safe for all careful runs that follow if and only if its device was never published, still is, or has its store |
| `Identity.ForeignLoginLeadsToTwoKeys` | src/crypto/device.rs:69-78 | a run from the start in which a login that names no user brings a signed-out device, whose store was deleted with care, second keys |
| `Identity.CarelessDeletionIsReached` | src/session.rs:131-246 | a careful run from the start leads to where deleting a store is careless |
| `Identity.CarelessDeletionLeadsToTwoKeys` | src/session.rs:158-177 | after a careless deletion the valid token alone brings the device second keys |
| `Identity.DeletionIsSafeExactlyIfCareful` | src/session.rs:131-246 | deleting an idle device's store is safe for all careful runs that follow if and only if the homeserver has not lost the keys of a device with a valid token |
| `Login.OwnDirectoryIsNamed` | src/crypto/device.rs:147-162 | a user's directory is found under the full ID and the local part, in any case, with or without the @ |
| `Login.FullIdNamesOnlyItself` | src/crypto/device.rs:147-162 | a full user ID names its own directory only, up to case and sanitizing |
| `Login.ScanDevices` | src/crypto/device.rs:114-130 | the scan of one user's devices keeps the newest matching store of all seen |
| `Login.DeviceIdForLogin` | src/crypto/device.rs:103-133 | the requested ID if it has a store, else the recorded device of a matching store used no earlier than any other, none if there is none |
| `Login.OrderDoesNotMatter` | src/crypto/device.rs:103-133 | listings of the same directories in any order give the same device if use times differ |
| `Login.PlanLogin` | src/crypto/device.rs:58-99 | the user is `identifier.user`, or `user` where there is none; with a textual device and user the request goes on with the chosen device, or none, and otherwise unchanged; any other login is left as it is |
| `Login.LocalNameNamesItsLocalPart` | src/crypto/device.rs:147-162 | a name without a colon names exactly the directories with that local part, up to case and sanitizing |
| `Login.SanitizedIs` | src/session.rs:267-281 | sanitizing keeps letters, digits and seven marks in place and makes an underscore of all else |
| `Login.SameInLowerCase` | src/crypto/device.rs:154-155 | two characters agree in lower case exactly if they are the same or the same letter |
| `Login.RecordedLogin` | src/crypto/device.rs:171-182 | a recorded login has its record in the device's directory, made if missing |
| `Login.RecordTouchesOnlyItsOwn` | src/crypto/device.rs:171-182 | other users' directories and other devices' records stay as they were |
| `Login.RecordedLoginIsFoundAgain` | src/crypto/device.rs:103-133 | a recorded login with the most recently used store is the one continued |
| `Login.NextLoginContinues` | src/proxy/login.rs:76-93 | after a login on whatever device, and its store opened, the next login asking for the same, under any of the user's names, continues that device, unless the requested ID has a store of its own |
| `Rooms.RoomTracker.NoteJoined` | src/crypto/rooms.rs:72-78 | the room is joined, with the counts given or, without any, the last ones |
| `Rooms.RoomTracker.NoteLeft` | src/crypto/rooms.rs:80-82 | the room is no longer joined |
| `Rooms.JoinsAndLeaves` | src/crypto/rooms.rs:72-82 | a join gives the counts or keeps the last ones, a leave forgets the room, and other rooms are not touched |
| `Rooms.SettingsAre` | src/crypto/rooms.rs:199-213 | settings are an algorithm and two periods, each under its own key, if they are numbers of 64 bits |
| `Rooms.NewsAre` | src/crypto/rooms.rs:255-295 | of which state events, by type and content, the tracker takes notice |
| `Rooms.RoomTracker.ScanStateEvents` | src/crypto/rooms.rs:250-298 | the loop leaves the tracker as `Scanned` says, of which `ScanSettles` is proved, and the negative cache and the settings disjoint |
| `Rooms.RoomTracker.IsRoomEncrypted` | src/crypto/rooms.rs:94-126 | negative cache, then settings, then the homeserver, with what each answer leaves behind |
| `Rooms.RoomTracker.HandleSend` | src/crypto/encrypt.rs:22-94 | encrypted content goes out under the client's transaction ID exactly if the room is out of the cache, its settings are known or found, and body and encryption succeed; plain content, prepared and under the client's type and transaction ID, exactly if the room is cached or just denied and the preparation succeeds; else nothing; unparsable rooms and encrypted events pass untouched |
| `Rooms.ScanIsLocal` | src/crypto/rooms.rs:250-298 | a scan changes what is known of its own room only |
| `Rooms.ScanReadsOwnRoom` | src/crypto/rooms.rs:250-298 | what a scan leaves of its room depends only on what was known of that room |
| `Rooms.ScanSettles` | src/crypto/rooms.rs:255-279 | after a scan a room has settings if and only if it had or an accepted event set them; any well-formed encryption event ends the negative cache |
| `RoomRuns.DisjointExactlyWhen` | src/crypto/rooms.rs:94-126 | over all interleavings of scans and sends, each awaiting between its marks, reads, answers and persists, and a store that may refuse any persist: no room is in both the negative cache and the settings, nor can be once a persist in flight completes, if and only if no "not found" is heard for a room that has settings or a persist in flight |
| `RoomRuns.SerialRunsAreDisjoint` | src/crypto/rooms.rs:94-126 | where each scan or lookup begins when no other is under way, no denial is late and no room is in both |
| `RoomRuns.EncryptionIsStickyExactlyIf` | src/crypto/encrypt.rs:30-83 | for a room with settings, whatever goes on in this room and all others short of a "not found" for this one: no send to it that begins later is ever decided plain if and only if the room is not in the negative cache |
| `RoomRuns.StaysEncryptedExactlyWhen` | src/crypto/encrypt.rs:30-83 | so encryption holds for the sends that begin at any point of a run if and only if no lookup of the room hears "not found" in it |
| `RoomRuns.EncryptionIsSticky` | src/crypto/encrypt.rs:30-83 | what such a send forwards is encrypted content under the client's transaction ID, or nothing, and the settings stay as they are (with media prepared by the identity, the same is so of what src/crypto/encrypt.rs:160-185 sends for in-room verification) |
| `Rooms.PlainOnlyIfDenied` | src/crypto/encrypt.rs:30-78 | plain content goes only to a room known or just found to be unencrypted; an undetermined state sends nothing |
| `RoomRuns.LateDenialSendsPlain` | src/crypto/rooms.rs:105-112 | the run in which a "not found" after the persist leaves the room in both and a later send plain |
| `RoomRuns.DenialBeforePersistSendsPlain` | src/crypto/rooms.rs:271-272 | the run in which a "not found" between a scan's mark and its persist does the same |
| `RoomRuns.DecidedBeforeGoesPlain` | src/crypto/encrypt.rs:41-83 | a send decided before the persist is forwarded plain after it, with no denial late |
| `RoomRuns.ScanAlone` | src/crypto/rooms.rs:250-298 | a scan that nothing disturbs leaves the tracker as `Scanned` says |
| `RoomRuns.SendAlone` | src/crypto/encrypt.rs:30-78 | a send that nothing disturbs learns and forwards what `Rooms.RoomTracker.HandleSend` does |
| `Media.CachedKeyDecrypts` | src/crypto/media.rs:56-70 | the key cached last for a URI decides its downloads, and no others |
| `Media.MediaKeyCache.HandleUpload` | src/crypto/media.rs:226-281 | the homeserver gets the ciphertext; the key is cached under the URI it gave, if it took the upload; the client gets an error exactly if that key cannot be cached |
| `Media.MediaKeyCache.HandleDownload` | src/crypto/media.rs:286-341 | cached media is decrypted, other media and failures are relayed, what does not decrypt is an error |
| `Media.MediaKeyCache.HarvestAndRewrite` | src/crypto/media.rs:378-418 | both files of a content are harvested and replaced by their URLs, and nothing where that fails |
| `Media.MediaKeyCache.Harvest` | src/crypto/media.rs:420-434 | a file's key is cached under its URL if the cache can be written |
| `Media.HarvestKeepsEvent` | src/crypto/media.rs:378-418 | harvesting changes only the content |
| `Media.FileParses` | src/crypto/media.rs:420-434 | a file is one exactly if it has a textual url and the four parts of a key |
| `Media.MainHarvested` | src/crypto/media.rs:385-402 | the main file gives way to its url and its key is cached with mimetype and body, or nothing happens |
| `Media.ThumbnailHarvested` | src/crypto/media.rs:403-418 | the thumbnail's file likewise, inside `info` |
| `Media.EventHarvested` | src/crypto/media.rs:378-418 | both in this order, of events whose content is an object; others are left alone |
| `Media.SentCarriesKey` | src/crypto/media.rs:345-373 | on the wire an attachment has its upload's key in `file`, no bare `url`, and every other field kept, with a missing mimetype filled in |
| `Media.SentAsIs` | src/crypto/media.rs:345-373 | what has no url, or none that is cached, is sent as it is |
| `Media.MediaRoundTrip` | src/crypto/media.rs:345-434 | rewriting and then harvesting gives the content back up to a filled-in mimetype, and the recipient's cache holds the sender's key and is otherwise as before |
| `Media.UploadedBytesComeBack` | src/crypto/media.rs:226-341 | with a cipher that decrypts what it encrypted, the recipient downloads the uploaded bytes |
| `Percent.LossyOfUtf8` | src/proxy/routes.rs:39-41 | lossy decoding gives back every encoded string |
| `Percent.LossyIsFaithful` | src/proxy/routes.rs:39-41 | bytes that do not encode what they are decoded to leave a replacement character in it |
| `Percent.DecOfEnc` | src/crypto/machine.rs:117-125 | decoding gives back every percent-encoded segment (sections 2.1 and 2.3 of RFC 3986) |
| `Percent.EncHasNoSlash` | src/crypto/machine.rs:117-125 | an encoded segment holds no slash |
| `Percent.EncIsInjective` | src/crypto/machine.rs:117-125 | different segments have different encodings |
| `Percent.UnreservedAre` | src/crypto/machine.rs:119-123 | letters, digits and four marks are written as they are |
| `Percent.HexDigits` | src/crypto/machine.rs:117-125 | hex digits are written in capitals and read in both cases |
| `Percent.DecodeKeepsOthers` | src/proxy/routes.rs:39-41 | a percent sign without two hex digits stays as it is |
| `Routes.SplitOfJoin` | src/proxy/routes.rs:44 | splitting a path takes apart what joining segments put together |
| `Routes.SendRoundTrip` | src/proxy/routes.rs:56-64 | the path built for a send is classified as that send, for all rooms, types and transaction IDs |
| `Routes.DownloadRoundTrip` | src/proxy/routes.rs:78-86 | the path built for a download is classified as that download, for all servers and media IDs |
| `Routes.MessagesRoundTrip` | src/proxy/routes.rs:65-67 | a room's message history is recognized in every version of the API, by GET alone |
| `Routes.ContextRoundTrip` | src/proxy/routes.rs:68-70 | an event's context likewise, in its room |
| `Routes.EventRoundTrip` | src/proxy/routes.rs:71-73 | a single event likewise |
| `Routes.LoginRoute` | src/proxy/routes.rs:54 | login in every version, by POST alone |
| `Routes.SyncRoute` | src/proxy/routes.rs:55 | sync in every version, by GET alone |
| `Routes.SendRoute` | src/proxy/routes.rs:56-64 | a send in every version, by PUT alone, with its room, type and transaction ID |
| `Routes.NotificationsRoute` | src/proxy/routes.rs:74-76 | notifications in every version, by GET alone |
| `Routes.UploadRoute` | src/proxy/routes.rs:77 | an upload in every version, by POST alone |
| `Routes.DownloadRoute` | src/proxy/routes.rs:78-86 | an authenticated download in every version, by GET alone, with whatever segments follow |
| `Routes.LegacyDownloadRoute` | src/proxy/routes.rs:87-93 | a legacy download likewise |
| `Routes.AdminRoute` | src/proxy/routes.rs:46-51 | the proxy's own paths, by any verb |
| `Routes.RouteTells` | src/proxy/routes.rs:43-96 | conversely, what each route says of verb and segments |
| `Routes.TrimmedIs` | src/proxy/routes.rs:44 | all leading slashes are trimmed, and nothing else |
| `Routes.ForwardedSendKeepsTarget` | src/crypto/encrypt.rs:65-69 | however a client writes a send's path, the path of its encrypted form is classified as a send to the same room under the same transaction ID |
| `Routes.SendPathIsInjective` | src/crypto/machine.rs:189-197 | two sends share a path only if they are the same |
| `KeyRequests.OneRequestPerSession` | src/crypto/decrypt.rs:372-412 | in every interleaving a session has at most one task, none starts after a success, and each failure allows exactly one more |
| `KeyRequests.StartsExactlyWhenIdle` | src/crypto/decrypt.rs:379-384 | an undecryptable event starts a task if and only if its session has none and none has succeeded |
| `KeyRequests.NoRequestIsLostOrResent` | src/crypto/decrypt.rs:390-401 | in every interleaving of tasks and pumps each request ever made is still queued or was answered once, and only the holder of the lock sends, and only what is queued |
| `Pump.Machine.SendAndMark` | src/crypto/machine.rs:135-211 | a request leaves the queue exactly if it is answered |
| `Pump.Machine.Pump` | src/crypto/machine.rs:54-83 | requests are sent in order until none is left or one fails; all others stay queued with those made meanwhile; backups only after the queue is empty |
| `Pump.Machine.UploadPendingBackups` | src/crypto/machine.rs:87-115 | batch by batch, at most 100, no key lost or saved twice; a failure leaves the rest |
| `Pump.SendKeepsProgress` | src/crypto/machine.rs:66-75 | with each answer, what was answered and what is queued are together all that was ever made, in order |
| `Pump.OutcomeIsUnique` | src/crypto/machine.rs:54-78 | the answers fix how far a pump gets |
| `KeyRequests.UndisturbedPumpIsPump` | src/crypto/machine.rs:54-78 | a pump of the interleavings that nothing disturbs leaves the queue and the answered requests as `Pump.Machine.Pump` does |
| `Verification.VerificationLog.RecordOne` | src/crypto/verify.rs:43-53 | a flow's newest summary is on record; a new flow comes last, and the oldest goes beyond 32 |
| `Verification.VerificationLog.RecordFinished` | src/crypto/verify.rs:74-94 | only flows listed as ended, for the users watched and the account's own, are entered or changed; each is on record, by the last word on it, unless 32 newer ones came after its place; others keep their summaries |
| `Verification.ListingIsRecorded` | src/crypto/verify.rs:74-94 | the same of any listing |
| `Verification.UndisturbedSectionIsRecordFinished` | src/crypto/verify.rs:74-94 | a section of the runs that nothing disturbs leaves the log that the method leaves from the same listing |
| `Verification.VerificationLog.All` | src/crypto/verify.rs:59-66 | the summaries on record, oldest first |
| `Verification.RecordKeepsValid` | src/crypto/verify.rs:43-53 | recording keeps order and entries in step, without repeats and bounded, with the flow on record |
| `Verification.FinishedFlowsAreKeptExactlyWhen` | src/crypto/verify.rs:381-450 | in every interleaving of syncs, paused actions and other recorders, every own flow that a sync makes the library forget was on record by then, if and only if whatever a failing section has ended is recorded before the next sync begins |
| `Verification.LogStaysOk` | src/crypto/verify.rs:43-53 | in every run the log is the newest 32 flows entered |
| `Verification.EntryStays` | src/crypto/verify.rs:43-53 | so an entry stays until 32 newer ones |
| `Verification.FailedSectionLosesFlow` | src/crypto/verify.rs:387-393 | a failing section that ended a flow loses it at a sync that follows at once |

## Left out

- Olm, megolm, AES and SAS: the crypto library's answers are parameters. That it gives a decrypted event the ID, sender and time of its envelope is a premise where it is used.
- HTTP, the reading and writing of JSON text, SQLite and file-system errors beyond success or failure; response bodies are assumed well shaped, since indexing into others panics.
- Configuration, the command line, the admin and debug pages, setup, logging and its buffer (`src/logbuf.rs`): they would add only easy members.
- Secret storage and backup decryption; the member cache's age, key sharing and encryption settings of `src/crypto/encrypt.rs`; `reupload_plaintext_if_needed`, which is a parameter of the send.
- The one-time-key count rule (src/crypto/sync.rs:308-318): one conditional insertion.
- The stages of a running verification, and retries by wall-clock time.
- Conversion of a to-device event (src/crypto/sync.rs:251-254) is total in `SeenToDevice`: a failure there would return before the rollback.
- Keys of to-device events stand for the events; hash collisions are not modelled. Times in the sync statistics are not either.
- Timelines that the homeserver cuts short (`limited`) are not modelled in `SyncRuns`: an answer carries all events between its positions.
- SyncRuns.HangingUpIsSafeExactlyIf: of a response with more than 4096 to-device events only the one half is proved, that it costs nothing if it has nothing new; from such a one the memory loses the first events itself.
- `SyncRuns` leaves open which edits a response carries; their way is in `Deliveries`, which takes what decrypting comes to as an answer.
- Sanitizing of IDs for paths is taken to be injective on the IDs in use, in `Identity`, where a store belongs to a user and a device.
- Programs other than the proxy that publish keys for a device; several proxies on one store directory.
- SyncBody.DecryptEvent: does not send the key request, which `KeyRequests` models, nor write the media cache, which `Media` models, nor feed in-room verification, whose messages the library handles.
- Verification.FinishedFlowsAreKeptExactlyWhen: is about the account's own flows that end inside a sync or a paused section; flows of other users are recorded only while they are watched.
- Routes.ForwardedSendKeepsTarget: is about the path; a room, type or transaction ID of one or two dots stays as it is in it, and setting it on a URL (src/upstream.rs:25-38) resolves such segments.
- Rooms.RoomTracker.HandleSend: is one call without interruption, as is `SyncBody.ProcessSyncBody`; what goes on between their awaits is in `RoomRuns`, `RepairRuns` and `WakeUp`.
- WakeUp.NoLostWakeUp: a repair queued while it is already ready, by a track or a requeue, wakes nobody; the code leaves it to the next sync.
- Pump.Machine.Pump: the library hands out its requests oldest first here; the code relies on no order.
- Rooms are rewritten in some order, not that of a sorted map; nothing but the order of placeholders in the queue depends on it.
