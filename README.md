# Run-of-show coordinator: a Dafny model

This project models the logic of a live-event "AI MC" system. A server
(`backend/index.js`) holds the single run state of an event. That state is:

- which playbook item is current;
- whether the event is running;
- whether a realtime voice session is active;
- whether the audio is on;
- a log bounded to 100 entries.

An operator console edits the playbook and sends commands. A main-stage
client polls the server's snapshot once a second. It reacts to changes by
reconfiguring, starting and stopping its realtime voice session and by
mounting and stopping a streaming avatar. The avatar component keeps a
queue of texts to speak and a module-wide lock with a cooldown that stops
it from initialising twice.

The model has five modules, one per concern:

| file | module | models | form |
|---|---|---|---|
| `playbook.dfy` | `Playbook` | the shared records (`frontend/src/types/index.ts`) and the `find`/`findIndex` lookups | datatypes and functions |
| `coordinator.dfy` | `Coordinator` | the server's run state, commands and bounded log | pure transition functions with lemmas, plus the class `Coordinator` whose methods update its fields and are proved equal to those functions |
| `editor.dfy` | `Editor` | the operator console's playbook editing handlers | functions on an editor state |
| `stage.dfy` | `Stage` | the main stage's snapshot diffing (`fetchState`), `handleTextResponse`, `showAvatar` | the pure step `StepFn` with lemmas, plus the class `StageClient` whose `Step` method is proved equal to it |
| `avatar.dfy` | `Avatar` | the avatar component's speak queue, imperative handle, stop-talking handler, init guard and cleanup | pure transition functions with lemmas, plus the classes `AvatarComponent` and `InitGuard` (the module-level lock and timestamp) |

Time is an input everywhere:

- Each server request receives one timestamp string, used for every log line the request writes.
- The editor's new-item id takes the clock reading as a `nat`.
- The avatar's init guard takes the clock reading as an `int`.

Storage reads and writes become inputs:

- `loaded` is the playbook read from the store.
- `saved` says whether a write succeeded.

Calls to the voice session and the avatar SDK are never executed. Each step
returns them as values (`Stage.Command`, `Avatar.SdkCall`).

### Where the model follows the code rather than the intended rules

- **Voice only during MC_TIME.** A voice session is meant to be
  inactive whenever the current item is not MC_TIME. The code enforces this
  only when `next` moves onto a SESSION item. `start` does not end an active
  voice session, so restarting on a playbook that begins with a SESSION item
  leaves voice on over a SESSION item (`Coordinator.VoiceCanOutliveMcTime`).
  The invariant the model proves is the one the code keeps,
  `Coordinator.Inv`:
  - the log has at most 100 entries;
  - voice implies running;
  - running holds exactly when there is a current item.
- **`previous()`.** A command to step back is part of the intended command
  set, but it does not exist in this revision of the server or the
  console, so it is not modelled.
- **Identifiers.** `next`, `find` and the editor's move and delete all
  look items up by id. Only with unique ids does `next` walk the playbook
  one item at a time (`Coordinator.NextTimesWalks`). With duplicate ids it
  can revisit items (`Coordinator.NextRepeatsOnDuplicateIds`).
- **Replaying a snapshot.** The stage client does not re-trigger on an
  unchanged snapshot only when that snapshot is coherent: a stopped event
  shows no current item and no active voice session. The coordinator only
  publishes coherent snapshots (`Stage.CoordinatorSnapshotsAreCoherent`).
  An incoherent one would make the poll after the stop edge reconfigure
  the session once more; the poll after that is quiet
  (`Stage.ReplayOfIncoherentSnapshotRepeats`).
- **Voice start and the cached playbook.** Voice-session start looks the
  current item up in the server's cached playbook and does not reload it
  from the store. `start`, `next`, the state endpoint and the playbook
  endpoint do reload it. The `Coordinator` class keeps the cache as a field.
- **The speak queue is FIFO only without empty texts.** When the avatar
  finishes a sentence and the head of the queue is an empty string, the
  busy flag clears while other texts are still queued. A text spoken next
  then overtakes them (`Avatar.EmptyQueuedTextLetsLaterTextOvertake`).

## Model

| member | source | states |
|---|---|---|
| Playbook.OrElse | frontend/src/pages/MainStage.tsx:49-51 | JavaScript's logical-or fallback on an optional string: the value when it is present and non-empty, the fallback otherwise |
| Playbook.NatToString | frontend/src/pages/OperatorConsole.tsx:142 | the decimal rendering of a clock reading is a non-empty string of digits, and a single digit renders as itself |
| Playbook.NatToStringValue | frontend/src/pages/OperatorConsole.tsx:142 | the digits printed for a clock reading denote that reading, read most significant digit first |
| Playbook.NatToStringInjective | frontend/src/pages/OperatorConsole.tsx:142 | distinct clock readings print as distinct strings |
| Playbook.FindIndex | backend/index.js:214 | `findIndex` by id: -1 exactly when no item carries the id (a null id matches nothing), otherwise a position holding the id with no earlier match |
| Playbook.Find | backend/index.js:187 | `find` by id: present exactly when some item carries the id; the item found is in the playbook, carries the id and sits at the `findIndex` position |
| Playbook.FindIndexAt | backend/index.js:214 | a position that holds the id, with no earlier match, is the position `findIndex` returns |
| Playbook.FindIndexOfUnique | backend/index.js:214 | with unique ids, looking up the id of the item at position i yields i |
| Coordinator.AppendLog | backend/index.js:94-103 | below the cap the entry is appended; at the cap the oldest entry is dropped and the entry appended |
| Coordinator.AppendLogIsSuffix | backend/index.js:94-103 | one append yields min(n+1, 100) entries, a suffix of the old log followed by the new entry |
| Coordinator.AppendAllKeepsNewest | backend/index.js:94-103 | after any sequence of appends, the log is exactly the newest min(total, 100) entries ever written, in write order |
| Coordinator.StartEvent | backend/index.js:197-206 | an empty playbook is rejected with no change; otherwise the event runs at the first item and logs "Event started - " with its title; voice and audio are untouched |
| Coordinator.NextItem | backend/index.js:209-229 | rejected with no change when not running, or when the current item is missing or last; otherwise it moves to the following item; entering a SESSION item ends an active voice session and logs that before "Moved to - " |
| Coordinator.Halt | backend/index.js:232-236 | a stop always succeeds: not running, no current item, no voice session, audio kept, and one log line |
| Coordinator.StopEvent | backend/index.js:232-236 | stop is the halt with message "Event stopped" |
| Coordinator.EmergencyStopEvent | backend/index.js:325-329 | emergency stop is the halt with message "EMERGENCY STOP activated" |
| Coordinator.StopsDifferOnlyInMessage | backend/index.js:232-246 | stop and emergency stop give the same record and reply except for the log |
| Coordinator.TeardownFinished | backend/index.js:239-243 | when the detached teardown completes, it logs the number of sessions stopped if that is at least one, and otherwise changes nothing |
| Coordinator.StartVoice | backend/index.js:249-260 | rejected when not running, or when the current item is not found in the cached playbook or is not MC_TIME; otherwise voice becomes active and the item's title is logged |
| Coordinator.StopVoice | backend/index.js:263-267 | voice becomes inactive unconditionally; running, the current item and audio are kept; one log line |
| Coordinator.ToggleAudio | backend/index.js:270-274 | audio flips; the log line reports the new value; nothing else changes |
| Coordinator.SetAudio | backend/index.js:277-282 | audio takes the requested value; the log line reports it; nothing else changes |
| Coordinator.MergeSettings | backend/index.js:173 | a shallow merge: each field the request carries wins; the others keep their values |
| Coordinator.MergeSettingsIdempotent | backend/index.js:173 | merging the same request twice equals merging it once; an empty request changes nothing |
| Coordinator.Snapshot | backend/index.js:184-194 | the state endpoint returns the record together with the current item resolved against the reloaded playbook: the first item carrying the id, absent exactly when no item carries it |
| Coordinator.StoppedSnapshotIsQuiet | backend/index.js:184-194 | a stopped coordinator publishes no current item and no active voice session |
| Coordinator.ApplyPreservesInv | backend/index.js:197-339 | every command keeps the invariant (log at most 100, voice implies running, running exactly when an item is current), and a rejected command changes nothing |
| Coordinator.RunPreservesInv | backend/index.js:197-339 | the invariant holds after any sequence of commands |
| Coordinator.InitialSatisfiesInv | backend/index.js:44-50 | the initial record satisfies the invariant: not running, no item, audio on |
| Coordinator.NextAdvancesByOne | backend/index.js:214-219 | with unique ids, next from position i goes to i+1, and fails at the last item |
| Coordinator.IterateAdvances | backend/index.js:209-229 | any step that moves the event from each position to the next, taken k times from position i, reaches position i+k |
| Coordinator.NextTimesWalks | backend/index.js:209-229 | with unique ids, k next commands from position i reach position i+k |
| Coordinator.NextRepeatsOnDuplicateIds | backend/index.js:214 | with a duplicated id, next from the second copy returns to the item after the first |
| Coordinator.ForcedVoiceStopScenario | backend/index.js:197-246 | start, voice start, next onto a SESSION item (voice forced off, two log lines), next at the end (rejected), stop |
| Coordinator.VoiceCanOutliveMcTime | backend/index.js:197-206 | start does not end an active voice session, so voice can stay active over a SESSION item |
| Coordinator.EmptyPlaybookNeverStarts | backend/index.js:199-201 | start on an empty playbook is rejected and leaves the record unchanged |
| Coordinator.Coordinator.constructor | backend/index.js:44-50 | the server begins with the initial record and the loaded playbook and settings |
| Coordinator.Coordinator.AddLog | backend/index.js:94-103 | push, then keep the newest 100, as `AppendLog` |
| Coordinator.Coordinator.Start | backend/index.js:197-206 | reloads the cache, then performs `StartEvent` on its fields and keeps the invariant |
| Coordinator.Coordinator.Next | backend/index.js:209-229 | reloads the cache only once the event is known to run, then performs `NextItem` on its fields |
| Coordinator.Coordinator.Stop | backend/index.js:232-236 | performs `StopEvent` on its fields |
| Coordinator.Coordinator.EmergencyStop | backend/index.js:325-329 | performs `EmergencyStopEvent` on its fields |
| Coordinator.Coordinator.OnTeardownFinished | backend/index.js:239-243 | performs `TeardownFinished` on its fields |
| Coordinator.Coordinator.VoiceSessionStart | backend/index.js:249-260 | performs `StartVoice` against the cached playbook, which it does not reload |
| Coordinator.Coordinator.VoiceSessionStop | backend/index.js:263-267 | performs `StopVoice` on its fields |
| Coordinator.Coordinator.AudioToggle | backend/index.js:270-274 | performs `ToggleAudio` and returns the new flag |
| Coordinator.Coordinator.AudioSet | backend/index.js:277-282 | performs `SetAudio` and returns the flag |
| Coordinator.Coordinator.SaveSettings | backend/index.js:171-181 | a failed write changes nothing; a successful one stores the merged settings and logs both values |
| Coordinator.Coordinator.SavePlaybook | backend/index.js:120-133 | a non-array body, or a failed write, changes nothing; otherwise the playbook is replaced and "Playbook updated" is logged |
| Coordinator.Coordinator.GetPlaybook | backend/index.js:114-117 | reloads the cache and returns it |
| Coordinator.Coordinator.GetState | backend/index.js:184-194 | reloads both caches and returns `Snapshot` of the record; by the class invariant a stopped record yields no current item and no active voice session |
| Editor.WithField | frontend/src/pages/OperatorConsole.tsx:136 | the edited field takes the value; the id, type and the other fields are kept |
| Editor.ReplaceById | frontend/src/pages/OperatorConsole.tsx:138 | same length and ids; items with the updated id are replaced, all others kept |
| Editor.ItemChange | frontend/src/pages/OperatorConsole.tsx:134-139 | no selection means no change; otherwise the selection gets the new value and every playbook item with its id becomes the updated item |
| Editor.NewItem | frontend/src/pages/OperatorConsole.tsx:142-156 | the id is the lower-cased type, "_" and the clock reading; MC_TIME and SESSION items get their default title and fields |
| Editor.NewItemIdsDistinct | frontend/src/pages/OperatorConsole.tsx:142 | items of one type added at distinct clock readings get distinct ids |
| Editor.AddItem | frontend/src/pages/OperatorConsole.tsx:141-159 | the old playbook followed by the new item, which becomes the selection |
| Editor.Without | frontend/src/pages/OperatorConsole.tsx:163 | the filter keeps exactly the items whose id differs, and no more copies of an item than there were |
| Editor.WithoutConcat | frontend/src/pages/OperatorConsole.tsx:163 | filtering distributes over concatenation, so kept items keep their relative order |
| Editor.WithoutAbsent | frontend/src/pages/OperatorConsole.tsx:163 | deleting an id nobody carries leaves the playbook unchanged |
| Editor.DeleteItem | frontend/src/pages/OperatorConsole.tsx:161-168 | unconfirmed: no change; confirmed: the id is removed, and a deleted selection falls back to the first remaining item or to none |
| Editor.Swap | frontend/src/pages/OperatorConsole.tsx:176-178 | the two positions trade items, every other position keeps its item, and the contents are a permutation |
| Editor.SwapBack | frontend/src/pages/OperatorConsole.tsx:176-178 | swapping the same two positions again restores the playbook |
| Editor.MoveItem | frontend/src/pages/OperatorConsole.tsx:170-180 | no change when the id is absent or its first item is at the end it moves toward; otherwise that item swaps with its neighbour in the given direction |
| Editor.SwapDownFinds | frontend/src/pages/OperatorConsole.tsx:171 | after the first item with the id swaps with a lower neighbour of another id, the lookup finds it one position lower |
| Editor.SwapUpFinds | frontend/src/pages/OperatorConsole.tsx:171 | after the first item with the id swaps with its upper neighbour, the lookup finds it one position higher |
| Editor.DownThenUpRestores | frontend/src/pages/OperatorConsole.tsx:170-180 | a move down followed by a move up restores the playbook when the neighbour has a different id |
| Editor.UpThenDownRestores | frontend/src/pages/OperatorConsole.tsx:170-180 | a move up followed by a move down restores the playbook |
| Editor.ImportPlaybook | frontend/src/pages/OperatorConsole.tsx:219-231 | only an array replaces the playbook, selecting its first item or nothing; a parse failure or a non-array keeps the editor as it was |
| Stage.NameSection | frontend/src/pages/MainStage.tsx:53 | the closing section names the MC twice, at fixed positions after its opening text |
| Stage.FullInstruction | frontend/src/pages/MainStage.tsx:49-53 | the session instruction is the item's directive, the script label, the item's script and the name section, in that order; a missing or empty directive or script reads as empty and an empty MC name falls back to "두에나" |
| Stage.FullInstructionParts | frontend/src/pages/MainStage.tsx:49-53 | the directive, the script label and the script are read back from the instruction at their positions |
| Stage.StepFn | frontend/src/pages/MainStage.tsx:41-94 | after a poll the remembered running flag equals the snapshot's, and the snapshot is the page state |
| Stage.StepFnIsPhases | frontend/src/pages/MainStage.tsx:41-94 | a poll runs the item, voice, stop and start phases in that order, each reading what the previous one left |
| Stage.StepItemChange | frontend/src/pages/MainStage.tsx:42-57 | a new item id is remembered and shown; the session is reconfigured, with the full instruction, exactly for a new MC_TIME item while voice is on and connected |
| Stage.StepVoiceChange | frontend/src/pages/MainStage.tsx:59-70 | the remembered voice flag follows the snapshot; start exactly when it turns on while disconnected and the avatar is ready; stop exactly when it turns off while connected, or on a stop edge while connected |
| Stage.StepRunningEdges | frontend/src/pages/MainStage.tsx:72-92 | a stop edge stops the avatar if present, unmounts it, clears readiness, the item id and the voice flag; a start edge mounts it; otherwise mounting is unchanged |
| Stage.CoordinatorSnapshotsAreCoherent | backend/index.js:184-194 | every snapshot of a coordinator in its invariant is coherent: when stopped, no item and no voice session |
| Stage.ReplayIsQuiet | frontend/src/pages/MainStage.tsx:41-94 | polling the same coherent snapshot again, with the same inputs, issues no command and changes nothing remembered |
| Stage.ReplayOfIncoherentSnapshotRepeats | frontend/src/pages/MainStage.tsx:42-57 | an incoherent stopped snapshot makes the poll after the stop edge reconfigure the session again, and the poll after that is quiet |
| Stage.ShowAvatarAfterStep | frontend/src/pages/MainStage.tsx:131-132 | after a poll the avatar is hidden for a stopped snapshot and, after a new item, shown exactly for an MC_TIME item of a running event on an entered stage |
| Stage.HandleTextResponse | frontend/src/pages/MainStage.tsx:18-23 | a response is spoken, unchanged, exactly when the avatar exists and the last snapshot has audio enabled |
| Stage.StageClient.constructor | frontend/src/pages/MainStage.tsx:8-16 | the page starts with no item, voice off, not running, nothing mounted |
| Stage.StageClient.OnAvatarReady | frontend/src/pages/MainStage.tsx:120-123 | the avatar becomes ready and nothing else changes |
| Stage.StageClient.ItemPhase | frontend/src/pages/MainStage.tsx:42-57 | performs the item phase on its fields |
| Stage.StageClient.VoicePhase | frontend/src/pages/MainStage.tsx:59-70 | performs the voice phase on its fields |
| Stage.StageClient.StopPhase | frontend/src/pages/MainStage.tsx:72-87 | performs the stop phase on its fields |
| Stage.StageClient.StartPhase | frontend/src/pages/MainStage.tsx:89-92 | performs the start phase on its fields |
| Stage.StageClient.Step | frontend/src/pages/MainStage.tsx:41-94 | one poll on the page's fields leaves the memory and issues the commands `StepFn` specifies |
| Avatar.SpeakStep | frontend/src/components/HeyGenAvatar.tsx:61-80 | no avatar: no change; busy: the text goes to the queue's tail; idle: busy is set and the text is spoken directly without touching the queue |
| Avatar.SpeakFailed | frontend/src/components/HeyGenAvatar.tsx:73-76 | a failed direct speak clears busy and changes nothing else |
| Avatar.InterruptStep | frontend/src/components/HeyGenAvatar.tsx:82-94 | acts only with an avatar whose session started: empties the queue, clears busy, interrupts |
| Avatar.StopStep | frontend/src/components/HeyGenAvatar.tsx:95-112 | drops the avatar and the session, releases the lock and zeroes the timestamp, stops the SDK only for a started session; the queue, busy and mounted are kept |
| Avatar.StopTalkingStep | frontend/src/components/HeyGenAvatar.tsx:221-236 | a non-empty queue loses its head, which is spoken (busy kept) when non-empty and the avatar exists; otherwise, or with an empty queue, busy clears |
| Avatar.Init | frontend/src/components/HeyGenAvatar.tsx:119-135 | init proceeds exactly when the lock is free and at least 2000 ms have passed; it then takes the lock and records the time, otherwise nothing changes |
| Avatar.MountStep | frontend/src/components/HeyGenAvatar.tsx:115-135 | the effect marks the component mounted and runs the init guard |
| Avatar.AvatarCreated | frontend/src/components/HeyGenAvatar.tsx:151-169 | an avatar instance is created only while still mounted |
| Avatar.SessionCreated | frontend/src/components/HeyGenAvatar.tsx:252-260 | when mounted the session counts as started; an unmounted component stops the zombie session instead |
| Avatar.CleanupStep | frontend/src/components/HeyGenAvatar.tsx:286-308 | unmounts and always releases the lock, keeping the timestamp; a started session is stopped and dropped |
| Avatar.SpeakAll | frontend/src/components/HeyGenAvatar.tsx:229 | the speak calls for a list of texts, one per text, in order |
| Avatar.DrainSpeaksInOrder | frontend/src/components/HeyGenAvatar.tsx:221-236 | with an avatar and no empty queued text, k stop-talking events speak the first k queued texts in enqueue order and leave the rest queued |
| Avatar.DrainAfter | frontend/src/components/HeyGenAvatar.tsx:221-236 | k+1 events are k events followed by one more |
| Avatar.DrainAllThenIdle | frontend/src/components/HeyGenAvatar.tsx:221-236 | draining speaks every queued text in order, and the next event leaves the component idle with an empty queue |
| Avatar.QueuedTextIsSpokenLast | frontend/src/components/HeyGenAvatar.tsx:63-66 | a text queued while busy is spoken after everything queued before it |
| Avatar.InterruptSilences | frontend/src/components/HeyGenAvatar.tsx:83-87 | after an interrupt the next stop-talking event speaks nothing and leaves the component idle |
| Avatar.EmptyQueuedTextLetsLaterTextOvertake | frontend/src/components/HeyGenAvatar.tsx:225-234 | an empty queued text ends busy while texts remain, so a later direct speak overtakes them |
| Avatar.LockExcludesSecondInit | frontend/src/components/HeyGenAvatar.tsx:123-126 | while an initialisation holds the lock every other attempt is skipped |
| Avatar.RemountWithinCooldownIsSkipped | frontend/src/components/HeyGenAvatar.tsx:129-132 | mount, cleanup and a remount within 2000 ms: the lock is free but the remount does not initialise |
| Avatar.RemountAfterCooldownProceeds | frontend/src/components/HeyGenAvatar.tsx:300-306 | after a cleanup a remount initialises once 2000 ms have passed since the recorded time |
| Avatar.StopAllowsImmediateRestart | frontend/src/components/HeyGenAvatar.tsx:107-108 | after a manual stop any clock reading of at least 2000 ms initialises |
| Avatar.InitGuard.constructor | frontend/src/components/HeyGenAvatar.tsx:30-31 | the shared lock starts free with timestamp 0 |
| Avatar.AvatarComponent.constructor | frontend/src/components/HeyGenAvatar.tsx:50-58 | no avatar, no session, empty queue, idle, not mounted |
| Avatar.AvatarComponent.Speak | frontend/src/components/HeyGenAvatar.tsx:61-80 | performs `SpeakStep` on the refs |
| Avatar.AvatarComponent.OnSpeakFailed | frontend/src/components/HeyGenAvatar.tsx:73-76 | performs `SpeakFailed` |
| Avatar.AvatarComponent.Interrupt | frontend/src/components/HeyGenAvatar.tsx:82-94 | performs `InterruptStep` |
| Avatar.AvatarComponent.Stop | frontend/src/components/HeyGenAvatar.tsx:95-112 | performs `StopStep` on the refs and the shared guard |
| Avatar.AvatarComponent.OnStopTalking | frontend/src/components/HeyGenAvatar.tsx:221-236 | performs `StopTalkingStep` with an in-place shift of the queue |
| Avatar.AvatarComponent.Mount | frontend/src/components/HeyGenAvatar.tsx:115-135 | performs `MountStep` on the refs and the shared guard |
| Avatar.AvatarComponent.OnAvatarCreated | frontend/src/components/HeyGenAvatar.tsx:162-169 | performs `AvatarCreated` |
| Avatar.AvatarComponent.OnSessionCreated | frontend/src/components/HeyGenAvatar.tsx:252-260 | performs `SessionCreated` |
| Avatar.AvatarComponent.Cleanup | frontend/src/components/HeyGenAvatar.tsx:286-308 | performs `CleanupStep` on the refs and the shared guard |

## Left out

- Persistence: the JSON files behind the playbook and settings, their default contents and the data directory. A read is an input (`loaded`); a write is a success flag (`saved`).
- The HTTP layer: status codes, JSON bodies and route wiring. A reply is `Ok` or an error kind.
- `cleanupHeyGenSessions` and the avatar provider's REST endpoints (session list, stop, token). The teardown that stop and emergency stop start is modelled only by its completion, `TeardownFinished`, which may come at any later point.
- Concurrency: requests are served one at a time; the asynchronous interleaving of the teardown and of the avatar's `init` with other events is modelled only as separate events.
- `Coordinator.Coordinator.AudioSet`: the request's `enabled` is taken as a boolean. The server stores whatever value the body carries and logs by its truthiness.
- `Coordinator.MergeSettings`: only `avatarId` and `mcName` are merged. Extra keys in a settings body are not modelled.
- `Coordinator.Coordinator.SavePlaybook`: the array's elements are taken to be playbook items. The server stores any array unchecked.
- `Coordinator.NextItem`: every log line of one request carries the same timestamp. The server reads the clock at each line.
- Editing an item's `id` or `type` through the form. The form edits only the title, script, instruction and description (`Editor.Field`).
- `Editor.ImportPlaybook`: the elements of an imported array are taken to be items. Non-object elements and `imported[0]` being falsy are not modelled.
- The console's export, sample download, save button, confirm dialog and alerts. The confirm dialog becomes the `confirmed` flag of `Editor.DeleteItem`.
- The operator console's polling, and the command buttons, which only forward requests to the server.
- `frontend/src/hooks/useRealtimeSession.ts`: the WebRTC session, SDP exchange and microphone capture. The stage sees only `isConnected` and the commands it issues.
- `Stage.StepFn`: a failed fetch or non-OK response skips the poll. This is not modelled.
- Avatar rendering: video playback, the stream-ready and disconnect events, loading and error messages, and the avatar id fallback. The ready callback becomes `Stage.StageClient.OnAvatarReady`.
- Token retrieval inside `init`: a failure ends `init` with an error message and keeps the lock. A failed init is not modelled as its own event.
- `previous()`: not part of this revision of the server or console.
