# expo-av playback control and expo-ota bundle persistence, modelled in Dafny

This project models three sequential parts of the Expo Android modules and proves properties of them:

- **PlayerManager** (`player_manager.dfy`, module `Player`): one sound or video's control core. It keeps one
  `Params` value (shouldPlay, rate, pitch correction, volume, mute, loop, progress interval) and replaces it
  wholesale. It reconciles the underlying player with that value and asks AVManager for audio focus. It drives
  the progress updater and forwards player events to listeners. The player is a class `ExpoPlayer` holding the
  properties PlayerManager reads (`loaded`, `playing`, `buffering`, positions, `continueUpdatingProgress`) and the
  two it assigns (`looping`, `volume`). Everything else PlayerManager does goes into one ordered log of `Event`s:
  commands to the player, focus requests, scheduler posts and removals, and deliveries to listeners and promises.
  Whether `acquireAudioFocus` succeeds is an input (`granted`). So is the text of the refusal exception
  (`focusError`, what `ex.toString()` gives), and so, for `setParams` and `load`, is whether reading the update throws
  (`updateThrows`).
- **AVManager** (`av_manager.dfy`, module `AV`): the process-wide audio state. This covers the duck/focus volume
  policy, the host pause/resume flag and its fan-out to the audio event handlers, the audio mode, the sound-key
  counter, and the single audio recorder's bookkeeping. The uptime clock is the parameter `now`. The
  RECORD_AUDIO permission and the "SDK >= N" test are boolean inputs. Every MediaRecorder call that can throw
  has its outcome passed in.
- **ExpoOTAPersistence** (`ota_persistence.dfy`, module `OTAPersistence`): five string entries in a per-id
  key-value store, the all-or-nothing promotion of a downloaded bundle, and the factory that hands out one
  persistence per id. The store is a `map<string, string>`, and writing null removes the key. Manifests are the
  strings the store holds.

The following quirks of the code are modelled as written:

- After `onSetStatusError`, setParams still calls `onSetStatusComplete`. So a promise is rejected, then resolved
  (`FocusRefusedRejectsThenResolves`).
- `load` reports success also when the initial params fail to get focus, and then it reports success twice
  (`LoadReportsSuccessEvenOnFocusError`).
- The "did just finish" status of `onCompleted` is not flagged (`OnCompleted`).
- `setStatusUpdateListener` fills the params-updated slot. The status-listener slot therefore stays empty, and
  no status update is ever delivered (`SetStatusUpdateListener`, `StatusNotify`).

`Params.update` and the `Params()` defaults live in `Params.kt`, which is not part of this model. `Update` is the
keep-the-old-value-when-absent merge that `setParams` relies on. `DefaultParams` is an assumption: since
`Params.kt` is not modelled, its values (shouldPlay false, rate 1, full volume, unmuted, not looping, no pitch
correction, a 500 ms progress interval) are expo-av's documented defaults.

An observation about this version of AVManager.java: it assigns `mAcquiredAudioFocus` and `mIsDuckingAudio` only
`false` (AVManager.java:69, 74, 216), and both are private. So its `getVolumeForDuckAndFocus` answers 0 in
every reachable state, and every `updateVolumeMuteAndDuck` through it silences the player. The model proves
this: `FocusNeverAcquired` is part of `AVManager.Valid`, every AVManager method keeps it, and `VolumeFor` is 0
under it (`VolumeAfterAudioMode`). PlayerManager reaches the policy through the `AVManagerInterface`, so its
model takes the two flags as an unconstrained `FocusState` input, which covers any implementation of that
interface, this one included.

## Model

| member | source | states |
|---|---|---|
| `Player.Update` | packages/expo-av/android/src/main/java/expo/modules/av/player/PlayerManager.kt:236 | each field present in the update replaces the old one; each absent field keeps its old value |
| `Player.UpdateSequential` | packages/expo-av/android/src/main/java/expo/modules/av/player/PlayerManager.kt:236 | applying two updates one after the other equals applying their merge once |
| `Player.ShouldPlayerPlay` | packages/expo-av/android/src/main/java/expo/modules/av/player/PlayerManager.kt:230-232 | the player should play only when shouldPlay is set, never at a rate of 0 or below, and always when both hold |
| `Player.NonPositiveRateMeansPaused` | packages/expo-av/android/src/main/java/expo/modules/av/player/PlayerManager.kt:230-232 | a rate of 0 or less means the player should not play, and reconciliation issues only a pause |
| `Player.ReconcileCommands` | packages/expo-av/android/src/main/java/expo/modules/av/player/PlayerManager.kt:266-280 | pause exactly when the player should not play; focus is requested exactly when it should; a play with the params' mute, rate and pitch flags is issued iff it should play and focus was granted; the last command after a focus request is abandonAudioFocusIfUnused |
| `Player.StatusNotify` | packages/expo-av/android/src/main/java/expo/modules/av/player/PlayerManager.kt:184-186 | a status is delivered iff a status listener is registered, and at most once |
| `Player.OnSetStatusError` | packages/expo-av/android/src/main/java/expo/modules/av/player/PlayerManager.kt:246-252 | the error report: a promise is rejected with E_AV_SETSTATUS and the error text, else the status listener is notified; at most one event, never a resolution |
| `Player.OnSetStatusComplete` | packages/expo-av/android/src/main/java/expo/modules/av/player/PlayerManager.kt:238-244 | the completion report: a promise is resolved with the new params, else the status listener is notified; at most one event, never a rejection |
| `Player.SetParamsEvents` | packages/expo-av/android/src/main/java/expo/modules/av/player/PlayerManager.kt:260-283 | without a focus error: the reconcile commands followed by the completion report; on a focus error: acquire, abandon, the error report, then the completion report, for every kind of completion |
| `Player.SetParamsWhenNotPlaying` | packages/expo-av/android/src/main/java/expo/modules/av/player/PlayerManager.kt:266-267 | when the player should not play, setParams starts with a pause and never requests focus or playback |
| `Player.FocusRefusedRejectsThenResolves` | packages/expo-av/android/src/main/java/expo/modules/av/player/PlayerManager.kt:269-281 | a refused focus request: no play; focus abandoned; the promise is rejected with E_AV_SETSTATUS and the exception's text, and afterwards resolved |
| `Player.LoadReportsSuccessEvenOnFocusError` | packages/expo-av/android/src/main/java/expo/modules/av/player/PlayerManager.kt:153-165 | the initial setParams of a load ends with load success and never reports a load error; on a focus error it reports success twice |
| `Player.FocusAndPlayCommands` | packages/expo-av/android/src/main/java/expo/modules/av/player/PlayerManager.kt:383-397 | no effect unless loaded and should play; focus is requested iff also unmuted; play iff also muted or granted, followed by a progress post |
| `Player.FocusAndPlayThrows` | packages/expo-av/android/src/main/java/expo/modules/av/player/PlayerManager.kt:382-390 | acquireFocusAndPlay throws iff it requested focus and focus was refused, and then it has issued no play |
| `Player.ProgressDecision` | packages/expo-av/android/src/main/java/expo/modules/av/player/PlayerManager.kt:203-209 | reschedule after the interval iff the player keeps progressing and the interval is positive; otherwise remove pending updates |
| `Player.ExpoPlayer.constructor` | packages/expo-av/android/src/main/java/expo/modules/av/player/PlayerManager.kt:50-60 | the player's properties that PlayerManager reads and assigns are exactly those handed over |
| `Player.PlayerManager.constructor` | packages/expo-av/android/src/main/java/expo/modules/av/player/PlayerManager.kt:21-48 | default params, empty log, no pending update, all listener slots empty |
| `Player.PlayerManager.CurrentStatus` | packages/expo-av/android/src/main/java/expo/modules/av/player/PlayerManager.kt:50-60 | the status is a snapshot of the player's fields; a missing playable duration reads as 0 |
| `Player.PlayerManager.IsPlaying` | packages/expo-av/android/src/main/java/expo/modules/av/player/PlayerManager.kt:44-45 | playing iff the status is loaded and playing |
| `Player.PlayerManager.RequiresAudioFocus` | packages/expo-av/android/src/main/java/expo/modules/av/player/PlayerManager.kt:325-327 | focus is needed iff the player plays and is not muted |
| `Player.PlayerManager.Play` | packages/expo-av/android/src/main/java/expo/modules/av/player/PlayerManager.kt:95-97 | shouldPlay becomes true; every other params field is unchanged |
| `Player.PlayerManager.Pause` | packages/expo-av/android/src/main/java/expo/modules/av/player/PlayerManager.kt:99-101 | shouldPlay becomes false; every other params field is unchanged |
| `Player.PlayerManager.SeekToPosition` | packages/expo-av/android/src/main/java/expo/modules/av/player/PlayerManager.kt:103-105 | exactly one seek command, to the given position |
| `Player.PlayerManager.SetSurfaceForPlayer` | packages/expo-av/android/src/main/java/expo/modules/av/player/PlayerManager.kt:173-175 | the surface is handed over with the current shouldPlay |
| `Player.PlayerManager.UpdateVolumeMuteAndDuck` | packages/expo-av/android/src/main/java/expo/modules/av/player/PlayerManager.kt:329-334 | a loaded player's volume becomes the duck/focus policy's value; an unloaded player is untouched |
| `Player.PlayerManager.SetParamsWithCompletion` | packages/expo-av/android/src/main/java/expo/modules/av/player/PlayerManager.kt:260-283 | stores the new params and copies isLooping to the player in every branch; the volume changes only on a granted play of a loaded player; the log grows by the reconcile commands, then onSetStatusError (on a focus error), then onSetStatusComplete |
| `Player.PlayerManager.Reconcile` | packages/expo-av/android/src/main/java/expo/modules/av/player/PlayerManager.kt:266-280 | appends exactly `ReconcileCommands` of the stored params, and sets the volume only on a granted play |
| `Player.PlayerManager.Report` | packages/expo-av/android/src/main/java/expo/modules/av/player/PlayerManager.kt:275-281 | onSetStatusError of the completion when focus was refused, then onSetStatusComplete in every case, both with the current status |
| `Player.PlayerManager.SetParams` | packages/expo-av/android/src/main/java/expo/modules/av/player/PlayerManager.kt:234-258 | stores the merge of the update onto the old params, copies isLooping, and sets the volume only on a granted play of a loaded player; reports to the promise if there is one, else to the status listener; when reading the update throws, nothing changes and only a promise is rejected with E_AV_SETSTATUS and "Encountered an error while setting status!" |
| `Player.PlayerManager.Load` | packages/expo-av/android/src/main/java/expo/modules/av/player/PlayerManager.kt:153-154 | asks the player to load and nothing else; the outcome arrives later through one of the two callbacks |
| `Player.PlayerManager.OnLoaded` | packages/expo-av/android/src/main/java/expo/modules/av/player/PlayerManager.kt:155-165 | merges the update onto the params as they stand when the player calls back, copies looping, sets the volume only on a granted play of a loaded player and reports load success; if reading the update throws, nothing is reported and nothing changes |
| `Player.PlayerManager.OnLoadError` | packages/expo-av/android/src/main/java/expo/modules/av/player/PlayerManager.kt:167-169 | forwards the load error and changes nothing else |
| `Player.PlayerManager.Release` | packages/expo-av/android/src/main/java/expo/modules/av/player/PlayerManager.kt:177-180 | pending progress updates are removed (none is left), then the player is released |
| `Player.PlayerManager.SetStatusUpdateListener` | packages/expo-av/android/src/main/java/expo/modules/av/player/PlayerManager.kt:215-220 | fills the params-updated slot and leaves the status slot as it was; posts one progress update |
| `Player.PlayerManager.SetErrorListener` | packages/expo-av/android/src/main/java/expo/modules/av/player/PlayerManager.kt:224-226 | the error-listener slot is filled |
| `Player.PlayerManager.SetVideoSizeUpdateListener` | packages/expo-av/android/src/main/java/expo/modules/av/player/PlayerManager.kt:287-289 | the video-size slot is filled |
| `Player.PlayerManager.ProgressUpdaterRun` | packages/expo-av/android/src/main/java/expo/modules/av/player/PlayerManager.kt:141-150 | consumes one pending run; when the weak reference resolves, it notifies and then reschedules or removes as `ProgressDecision` says; otherwise it has no effect |
| `Player.PlayerManager.ProgressUpdateLoop` | packages/expo-av/android/src/main/java/expo/modules/av/player/PlayerManager.kt:203-209 | logs `ProgressDecision`; a reschedule adds one pending run, and a removal leaves none |
| `Player.PlayerManager.HandleAudioFocusInterruptionBegan` | packages/expo-av/android/src/main/java/expo/modules/av/player/PlayerManager.kt:301-306 | unmuted: pause, then stop progress updates; muted: nothing; the params never change |
| `Player.PlayerManager.AcquireFocusAndPlay` | packages/expo-av/android/src/main/java/expo/modules/av/player/PlayerManager.kt:382-397 | appends `FocusAndPlayCommands`; throws iff focus was requested and refused; the volume is set and one progress run is posted iff it played |
| `Player.PlayerManager.HandleAudioFocusGained` | packages/expo-av/android/src/main/java/expo/modules/av/player/PlayerManager.kt:308-315 | the acquireFocusAndPlay attempt, with a refusal swallowed: the params are unchanged, and the volume is set and one progress run posted iff it played |
| `Player.PlayerManager.OnResume` | packages/expo-av/android/src/main/java/expo/modules/av/player/PlayerManager.kt:336-344 | the same attempt on host resume, with a refusal swallowed: the volume is set and one progress run posted iff it played |
| `Player.PlayerManager.OnPause` | packages/expo-av/android/src/main/java/expo/modules/av/player/PlayerManager.kt:317-323 | exactly one immediate pause |
| `Player.PlayerManager.OnCompleted` | packages/expo-av/android/src/main/java/expo/modules/av/player/PlayerManager.kt:346-352 | notifies the status listener, with didJustFinish unset, then abandons focus unless the player loops |
| `Player.PlayerManager.OnPlayerStatusEvent` | packages/expo-av/android/src/main/java/expo/modules/av/player/PlayerManager.kt:354-376 | seek-done, buffering and status events only notify the status listener |
| `Player.PlayerManager.OnError` | packages/expo-av/android/src/main/java/expo/modules/av/player/PlayerManager.kt:358-360 | forwards the message verbatim to a registered error listener; fails without one |
| `Player.PlayerManager.VideoSizeChanged` | packages/expo-av/android/src/main/java/expo/modules/av/player/PlayerManager.kt:378-380 | forwards the size only to a registered video-size listener |
| `Player.LoadThenPlay` | packages/expo-av/android/src/main/java/expo/modules/av/player/PlayerManager.kt:153-165 | when the player is loaded before it calls back and the update asks for playback with focus granted, the success report carries a loaded status and the volume is the duck/focus policy's |
| `AV.VolumeForDuckAndFocus` | packages/expo-av/android/src/main/java/expo/modules/av/AVManager.java:201-204 | 0 without focus or when muted; volume/2 while ducking; volume otherwise; silent iff no focus, muted or zero volume; never above a non-negative volume |
| `AV.Broadcast` | packages/expo-av/android/src/main/java/expo/modules/av/AVManager.java:206-210 | one dispatch per handler, in the order of the `handlers` sequence, each carrying the same call |
| `AV.NotifyHandlers` | packages/expo-av/android/src/main/java/expo/modules/av/AVManager.java:206-210 | one call per handler, in the order of the `handlers` sequence |
| `AV.KeysIssuedAt` | packages/expo-av/android/src/main/java/expo/modules/av/AVManager.java:244 | the k-th sound key issued is k |
| `AV.KeysStrictlyIncreasing` | packages/expo-av/android/src/main/java/expo/modules/av/AVManager.java:244 | keys issued by successive loads strictly increase, so they are distinct |
| `AV.Int32Cast` | packages/expo-av/android/src/main/java/expo/modules/av/AVManager.java:386 | the (int) cast of a long keeps its value modulo 2^32 in the int range, and is the identity on int values |
| `AV.AVManager.constructor` | packages/expo-av/android/src/main/java/expo/modules/av/AVManager.java:69-86 | the fields' initial values: no focus, not paused, ducking allowed but not active, counter 0, no recorder |
| `AV.AVManager.VolumeFor` | packages/expo-av/android/src/main/java/expo/modules/av/AVManager.java:201-204 | AVManager's answer is the volume policy applied to its own focus flags, and 0 in every state where focus was never acquired |
| `AV.AVManager.OnHostResume` | packages/expo-av/android/src/main/java/expo/modules/av/AVManager.java:157-165 | the app ends up not paused; handlers are resumed only if it was paused, so a repeated call does nothing |
| `AV.AVManager.OnHostPause` | packages/expo-av/android/src/main/java/expo/modules/av/AVManager.java:167-175 | the app ends up paused; handlers are paused only if it was not, so a repeated call does nothing |
| `AV.AVManager.SetAudioMode` | packages/expo-av/android/src/main/java/expo/modules/av/AVManager.java:212-221 | stores both flags; with shouldDuck false, ducking is cleared and every handler re-applies its volume |
| `AV.AVManager.LoadForSound` | packages/expo-av/android/src/main/java/expo/modules/av/AVManager.java:242-259 | the key is the old counter, the counter grows by one, the key is new and above every registered key; a failed load unregisters it again |
| `AV.AVManager.DurationMillis` | packages/expo-av/android/src/main/java/expo/modules/av/AVManager.java:370-379 | 0 without a recorder; the already-recorded duration, plus the elapsed time only while recording with a positive start time; never less than the recorded part |
| `AV.AVManager.Status` | packages/expo-av/android/src/main/java/expo/modules/av/AVManager.java:381-389 | empty iff there is no recorder; otherwise isRecording and the duration cast to int |
| `AV.AVManager.CheckAudioRecorderExistsOrReject` | packages/expo-av/android/src/main/java/expo/modules/av/AVManager.java:362-368 | rejects with E_AUDIO_NORECORDER exactly when there is no recorder |
| `AV.AVManager.RemoveAudioRecorder` | packages/expo-av/android/src/main/java/expo/modules/av/AVManager.java:391-408 | any recorder is stopped and released; recorder, path, flags, duration and start time all return to their defaults |
| `AV.AVManager.OnInfo` | packages/expo-av/android/src/main/java/expo/modules/av/AVManager.java:410-424 | on maximum file size: stops and releases a live recorder, resets all recorder state and emits recorderUnloaded; any other code changes nothing |
| `AV.AVManager.PrepareAudioRecorder` | packages/expo-av/android/src/main/java/expo/modules/av/AVManager.java:426-482 | without permission it rejects and changes nothing; otherwise it replaces any recorder; a failed prepare rejects and leaves no recorder; success resolves with the path and an idle status |
| `AV.AVManager.StartAudioRecording` | packages/expo-av/android/src/main/java/expo/modules/av/AVManager.java:484-509 | permission and recorder checks in order; resumes a paused recorder on SDK >= N and starts it otherwise; on success it is recording, not paused, with the start time `now` |
| `AV.AVManager.PauseAudioRecording` | packages/expo-av/android/src/main/java/expo/modules/av/AVManager.java:511-532 | rejects before SDK N; on success folds the current duration into the recorded one, so it is not recording but paused |
| `AV.AVManager.StopAudioRecording` | packages/expo-av/android/src/main/java/expo/modules/av/AVManager.java:534-550 | on success folds the current duration into the recorded one and clears both isRecording and isPaused |
| `AV.AVManager.GetAudioRecordingStatus` | packages/expo-av/android/src/main/java/expo/modules/av/AVManager.java:552-557 | rejects without a recorder; otherwise resolves with the current status |
| `AV.AVManager.UnloadAudioRecorder` | packages/expo-av/android/src/main/java/expo/modules/av/AVManager.java:559-565 | rejects without a recorder; otherwise removes it and resolves with null |
| `AV.RecordingSessionDuration` | packages/expo-av/android/src/main/java/expo/modules/av/AVManager.java:503-546 | start, pause, resume and stop credit the recording with exactly the two stretches it ran |
| `AV.VolumeAfterAudioMode` | packages/expo-av/android/src/main/java/expo/modules/av/AVManager.java:157-221 | after any audio mode and host pause and resume, a fresh AVManager still answers 0 for every volume query |
| `OTAPersistence.WriteString` | packages/expo-ota/android/src/main/java/expo/modules/ota/ExpoOTAPersistence.kt:35 | reading the key back gives the written value; null removes the key; every other key is unchanged |
| `OTAPersistence.Read` | packages/expo-ota/android/src/main/java/expo/modules/ota/ExpoOTAPersistence.kt:21 | readString with a null default: a value iff the key is stored, and then the stored one |
| `OTAPersistence.ManifestOf` | packages/expo-ota/android/src/main/java/expo/modules/ota/ExpoOTAPersistence.kt:46-50 | the stored manifest, or "{}" when it is missing or empty; never empty |
| `OTAPersistence.NewestManifestOf` | packages/expo-ota/android/src/main/java/expo/modules/ota/ExpoOTAPersistence.kt:56-59 | the downloaded manifest when one is stored, otherwise the current manifest |
| `OTAPersistence.Promoted` | packages/expo-ota/android/src/main/java/expo/modules/ota/ExpoOTAPersistence.kt:71-81 | with both downloads stored: outdated becomes the old bundle path, and manifest and bundle path become the downloaded ones; both downloaded keys are cleared; with either missing, nothing changes; keys outside the five never change |
| `OTAPersistence.PromotedIdempotent` | packages/expo-ota/android/src/main/java/expo/modules/ota/ExpoOTAPersistence.kt:71-81 | a second promotion changes nothing |
| `OTAPersistence.PromotedNewestManifest` | packages/expo-ota/android/src/main/java/expo/modules/ota/ExpoOTAPersistence.kt:56-81 | after a promotion the current manifest is the newest one, and it is the manifest that was downloaded |
| `OTAPersistence.SoleEntry` | packages/expo-ota/android/src/main/java/expo/modules/ota/ExpoOTAPersistence.kt:96-97 | a map of size one consists of any key it contains |
| `OTAPersistence.ExpoOTAPersistence.constructor` | packages/expo-ota/android/src/main/java/expo/modules/ota/ExpoOTAPersistence.kt:14 | the persistence reads the given store, and nothing has been written yet |
| `OTAPersistence.ExpoOTAPersistence.WriteEntry` | packages/expo-ota/android/src/main/java/expo/modules/ota/ExpoOTAPersistence.kt:35 | one writeString: the store becomes `WriteString` of the old one, and the write is recorded |
| `OTAPersistence.ExpoOTAPersistence.BundlePath` | packages/expo-ota/android/src/main/java/expo/modules/ota/ExpoOTAPersistence.kt:19-22 | the stored bundle path, or null |
| `OTAPersistence.ExpoOTAPersistence.DownloadedBundlePath` | packages/expo-ota/android/src/main/java/expo/modules/ota/ExpoOTAPersistence.kt:30-33 | the stored downloaded bundle path, or null |
| `OTAPersistence.ExpoOTAPersistence.OutdatedBundlePath` | packages/expo-ota/android/src/main/java/expo/modules/ota/ExpoOTAPersistence.kt:38-41 | the stored outdated bundle path, or null |
| `OTAPersistence.ExpoOTAPersistence.Manifest` | packages/expo-ota/android/src/main/java/expo/modules/ota/ExpoOTAPersistence.kt:46-51 | the stored manifest, or "{}" when it is missing or empty |
| `OTAPersistence.ExpoOTAPersistence.DownloadedManifest` | packages/expo-ota/android/src/main/java/expo/modules/ota/ExpoOTAPersistence.kt:61-65 | the stored downloaded manifest, or null |
| `OTAPersistence.ExpoOTAPersistence.NewestManifest` | packages/expo-ota/android/src/main/java/expo/modules/ota/ExpoOTAPersistence.kt:56-59 | the downloaded manifest if stored, else the manifest |
| `OTAPersistence.ExpoOTAPersistence.SetBundlePath` | packages/expo-ota/android/src/main/java/expo/modules/ota/ExpoOTAPersistence.kt:23-28 | the getter then returns the value; the store is written only when the value differs from the stored one |
| `OTAPersistence.ExpoOTAPersistence.SetDownloadedBundlePath` | packages/expo-ota/android/src/main/java/expo/modules/ota/ExpoOTAPersistence.kt:34-36 | one write; the getter then returns exactly the value written |
| `OTAPersistence.ExpoOTAPersistence.SetOutdatedBundlePath` | packages/expo-ota/android/src/main/java/expo/modules/ota/ExpoOTAPersistence.kt:42-44 | one write; the getter then returns exactly the value written |
| `OTAPersistence.ExpoOTAPersistence.SetManifest` | packages/expo-ota/android/src/main/java/expo/modules/ota/ExpoOTAPersistence.kt:52-54 | one write; the getter then returns the manifest, or "{}" for an empty one |
| `OTAPersistence.ExpoOTAPersistence.SetDownloadedManifest` | packages/expo-ota/android/src/main/java/expo/modules/ota/ExpoOTAPersistence.kt:66-68 | one write; the getter then returns exactly the value written |
| `OTAPersistence.ExpoOTAPersistence.MarkDownloadedCurrentAndCurrentOutdated` | packages/expo-ota/android/src/main/java/expo/modules/ota/ExpoOTAPersistence.kt:71-81 | the store becomes `Promoted` of the old store; with both downloads, exactly the setters' writes happen in source order (the bundle-path write only if it changes); otherwise no write |
| `OTAPersistence.ExpoOTAPersistenceFactory.constructor` | packages/expo-ota/android/src/main/java/expo/modules/ota/ExpoOTAPersistence.kt:91 | the map starts empty |
| `OTAPersistence.ExpoOTAPersistenceFactory.Persistence` | packages/expo-ota/android/src/main/java/expo/modules/ota/ExpoOTAPersistence.kt:93-108 | null id: the sole entry when there is exactly one, otherwise the error, and the map is unchanged; known id: its instance, map unchanged; new id: a fresh instance, inserted under that id |

## Left out

- `httpCookiesList` (PlayerManager.kt:69-93): cookie lookup and parsing go through `CookieHandler` and `HttpCookie`. `Load` does not pass cookies to the player.
- Threading: the `@Synchronized` accessors, `Handler` timing and the weak reference's garbage collection are left out. The handler is a count of pending `ProgressUpdater` runs. Whether the weak reference still resolves is the input `alive`. In this code `ProgressUpdater` is a Kotlin `inner` class (PlayerManager.kt:141), so it holds its PlayerManager strongly and `alive` is always true for this code. The `!alive` branch of `ProgressUpdaterRun` cannot be reached with it.
- Fullscreen presentation (`isPresentedFullscreen`, `setFullscreenPresenter`, `toggleFullscreen`), `videoWidthHeight` and `audioSessionId`: UI and platform pass-through.
- The underlying player's own state changes (after `play`, `pauseImmediately`, `seekTo`, `load`, `release`) are left out. Those commands are logged, and the player's fields change only when the environment assigns them.
- Everything AudioFocusHandler does is left out: acquiring and abandoning focus, ducking and focus-loss callbacks. AudioFocusHandler is not part of this model. It cannot set AVManager's private focus flags, which AVManager itself only sets to false. Focus success is the input `granted`, and PlayerManager's volume policy reads a free `FocusState` input, since PlayerManager sees AVManager only through an interface.
- Sounds registered by `loadForSound` (the keys in `audios`) are not added to `handlers`, so in the model a loaded sound receives no pause, resume or volume dispatch. The registry that links them (AudioEventHandlers) is not part of this model.
- The handler callbacks that AVManager fans out are logged as `Dispatch` records and do not call into `PlayerManager`. The matching PlayerManager reactions are the methods `OnPause`, `OnResume` and `UpdateVolumeMuteAndDuck`.
- `onHostDestroy`, `tryGetSoundForKey`, `removeSoundForKey`, `unloadForSound`, `setParamsForSound`, `replaySound` and `getStatusForSound`: these go through the AudioEventHandlers registry, which is not part of this model.
- Video operations (`loadForVideo` etc.) run inside `tryRunWithVideoView` UI blocks. They are left out as UI plumbing.
- `sendEvent` and all Bundle marshalling are left out. A recorder status is a datatype, and a promise outcome is a `Reply`. `OnInfo` always records the recorderUnloaded event, while the source emits it only when a module registry and an EventEmitter are present (AVManager.java:415-419).
- The order in which AVManager visits its audio event handlers is the order of the `handlers` sequence. The registry's own iteration order is not part of this model.
- MediaRecorder configuration is left out (output format, encoder, sample rate, channels, bit rate, maximum file size), as are `ensureDirExists`, UUID file naming and the file URI's string form. The recording file path is an input.
- `AV.AVManager.LoadForSound`: does not model the 32-bit wrap-around of `mSoundMapKeyCount` after 2^31 loads. Keys are unbounded integers.
- `Player.PlayerManager.SetParams`: the catch-all `Throwable` handler is modelled only for a throw while reading the update (`updateThrows`). A throw from a player command midway through reconciliation (after the params were stored) is not modelled.
- Float arithmetic of `rate` and `volume` is modelled with exact `real` numbers.
- JSON parsing and printing of manifests are left out, and so are `storage.commit()` (`synchronize`) and the unused `config` and `id` fields of ExpoOTAPersistence. A manifest is the stored string. The `JSONObject` constructor's failure on malformed text is not modelled.
- `KeyValueStorage` is not part of this model. Its `writeString` with null is taken to remove the key, which is how SharedPreferences treats a null string.
