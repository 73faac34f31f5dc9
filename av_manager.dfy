/**
 * The process-wide audio state of expo-av on Android (AVManager.java): the
 * duck/focus volume policy, the host pause/resume flag and its fan-out to the
 * registered audio event handlers, the audio mode, the sound-key counter and
 * the bookkeeping of the single audio recorder.
 *
 * The uptime clock (SystemClock.uptimeMillis) is the parameter `now`, the
 * RECORD_AUDIO permission and the SDK-version test are boolean inputs, and each
 * MediaRecorder call that can throw has its outcome passed in.
 */
module AV {
  import opened Wrappers

  // ---------------------------------------------------------------------------
  // Volume policy
  // ---------------------------------------------------------------------------

  /** The two flags the volume policy reads: mAcquiredAudioFocus and mIsDuckingAudio. */
  datatype FocusState = FocusState(acquiredAudioFocus: bool, isDuckingAudio: bool)

  /**
   * getVolumeForDuckAndFocus: silent without focus or when muted, half volume
   * while ducking, the requested volume otherwise.
   */
  function VolumeForDuckAndFocus(focus: FocusState, isMuted: bool, volume: real): (r: real)
    ensures !focus.acquiredAudioFocus || isMuted ==> r == 0.0
    ensures focus.acquiredAudioFocus && !isMuted && focus.isDuckingAudio ==> r == volume / 2.0
    ensures focus.acquiredAudioFocus && !isMuted && !focus.isDuckingAudio ==> r == volume
    ensures r == 0.0 <==> !focus.acquiredAudioFocus || isMuted || volume == 0.0
    ensures 0.0 <= volume ==> 0.0 <= r <= volume
  {
    if !focus.acquiredAudioFocus || isMuted then 0.0
    else if focus.isDuckingAudio then volume / 2.0
    else volume
  }

  // ---------------------------------------------------------------------------
  // Fan-out to the audio event handlers
  // ---------------------------------------------------------------------------

  /** A registered AudioEventHandler (a sound's PlayerManager or a video view), by identity. */
  type HandlerId = nat

  /** The AudioEventHandler callbacks AVManager invokes on every handler. */
  datatype HandlerCall = OnPause | OnResume | UpdateVolumeMuteAndDuck

  datatype Dispatch = Dispatch(handler: HandlerId, call: HandlerCall)

  /** One call per handler, in the order of the `handlers` sequence. */
  function Broadcast(handlers: seq<HandlerId>, call: HandlerCall): (r: seq<Dispatch>)
    ensures |r| == |handlers|
    ensures forall i :: 0 <= i < |r| ==> r[i].handler == handlers[i] && r[i].call == call
    ensures forall d :: d in r ==> d.call == call && d.handler in handlers
  {
    seq(|handlers|, i requires 0 <= i < |handlers| => Dispatch(handlers[i], call))
  }

  /** The `for (handler : getAudioEventHandlers())` loop: invokes `call` on each handler in turn. */
  method NotifyHandlers(handlers: seq<HandlerId>, call: HandlerCall) returns (sent: seq<Dispatch>)
    ensures |sent| == |handlers|
    ensures forall i :: 0 <= i < |handlers| ==> sent[i] == Dispatch(handlers[i], call)
    ensures sent == Broadcast(handlers, call)
  {
    sent := [];
    var i := 0;
    while i < |handlers|
      invariant 0 <= i <= |handlers|
      invariant |sent| == i
      invariant forall j :: 0 <= j < i ==> sent[j] == Dispatch(handlers[j], call)
    {
      sent := sent + [Dispatch(handlers[i], call)];
      i := i + 1;
    }
  }

  // ---------------------------------------------------------------------------
  // Sound keys
  // ---------------------------------------------------------------------------

  /** The keys handed out by the first `n` calls of loadForSound, oldest first. */
  function KeysIssued(n: nat): seq<int>
  {
    if n == 0 then [] else KeysIssued(n - 1) + [n - 1]
  }

  /** The k-th key issued is k. */
  lemma {:induction false} KeysIssuedAt(n: nat, k: nat)
    requires k < n
    ensures |KeysIssued(n)| == n && KeysIssued(n)[k] == k
  {
    if k < n - 1 {
      KeysIssuedAt(n - 1, k);
    } else {
      KeysIssuedLength(n - 1);
    }
  }

  lemma {:induction false} KeysIssuedLength(n: nat)
    ensures |KeysIssued(n)| == n
  {
    if n > 0 {
      KeysIssuedLength(n - 1);
    }
  }

  /** Keys issued by successive loads are strictly increasing, hence pairwise distinct. */
  lemma KeysStrictlyIncreasing(n: nat, i: nat, j: nat)
    requires i < j < n
    ensures |KeysIssued(n)| == n
    ensures KeysIssued(n)[i] < KeysIssued(n)[j]
  {
    KeysIssuedAt(n, i);
    KeysIssuedAt(n, j);
  }

  // ---------------------------------------------------------------------------
  // Recorder replies
  // ---------------------------------------------------------------------------

  /** The MediaRecorder calls AVManager issues. */
  datatype RecorderCommand = Prepare(outputFile: string) | Start | Resume | Pause | Stop | Release

  /**
   * getAudioRecorderStatus: empty without a recorder; otherwise canRecord (always
   * true), isRecording and the duration cast to a Java int.
   */
  datatype RecorderStatus = NoRecorderStatus | RecorderStatus(isRecording: bool, durationMillis: int)

  /** What a recording API call does with its promise. */
  datatype Reply =
    | ResolveStatus(status: RecorderStatus)
    | ResolvePrepared(filePath: string, preparedStatus: RecorderStatus)
    | ResolveNull
    | Reject(code: string, message: string)

  const MissingPermission := Reject("E_MISSING_PERMISSION", "Missing audio recording permissions.")
  const NoRecorder := Reject("E_AUDIO_NORECORDER", "Recorder does not exist.")

  /** android.media.MediaRecorder.MEDIA_RECORDER_INFO_MAX_FILESIZE_REACHED */
  const MaxFileSizeReached: int := 801

  /** Java's narrowing cast from long to int: keeps the low 32 bits as a two's-complement value. */
  function Int32Cast(x: int): (r: int)
    ensures -0x8000_0000 <= r < 0x8000_0000
    ensures (r - x) % 0x1_0000_0000 == 0
    ensures -0x8000_0000 <= x < 0x8000_0000 ==> r == x
  {
    var m := x % 0x1_0000_0000;
    if m < 0x8000_0000 then m else m - 0x1_0000_0000
  }

  // ---------------------------------------------------------------------------
  // AVManager
  // ---------------------------------------------------------------------------

  class AVManager {
    var acquiredAudioFocus: bool
    var appIsPaused: bool
    var shouldDuckAudio: bool
    var isDuckingAudio: bool
    var staysActiveInBackground: bool

    /** mSoundMapKeyCount and the keys of the registered sounds. */
    var soundMapKeyCount: int
    var audios: set<int>
    ghost var issuedKeys: seq<int>

    /** The registered audio event handlers and every callback dispatched to them so far. */
    var handlers: seq<HandlerId>
    var dispatched: seq<Dispatch>
    /** Names of the events emitted to JavaScript by the recorder. */
    var emitted: seq<string>

    /** Recorder bookkeeping; `hasRecorder` is `mAudioRecorder != null`. */
    var hasRecorder: bool
    var recordingFilePath: Option<string>
    var uptimeOfLastStartResume: int
    var durationAlreadyRecorded: int
    var isRecording: bool
    var isPaused: bool
    var recorderCommands: seq<RecorderCommand>

    /** Sound keys: every registered key was issued, and the keys issued so far are 0, 1, ..., count - 1. */
    ghost predicate KeysValid()
      reads this
    {
      && 0 <= soundMapKeyCount
      && issuedKeys == KeysIssued(soundMapKeyCount)
      && forall k :: k in audios ==> 0 <= k < soundMapKeyCount
    }

    /** Recorder: never recording and paused at once; without a recorder every field is at its default. */
    ghost predicate RecorderValid()
      reads this
    {
      && !(isRecording && isPaused)
      && 0 <= uptimeOfLastStartResume
      && 0 <= durationAlreadyRecorded
      && (!hasRecorder ==>
            recordingFilePath == None && !isRecording && !isPaused
            && durationAlreadyRecorded == 0 && uptimeOfLastStartResume == 0)
    }

    /**
     * Focus: AVManager itself only ever assigns false to mAcquiredAudioFocus and
     * mIsDuckingAudio, so in every reachable state both are false.
     */
    ghost predicate FocusNeverAcquired()
      reads this
    {
      !acquiredAudioFocus && !isDuckingAudio
    }

    ghost predicate Valid()
      reads this
    {
      KeysValid() && RecorderValid() && FocusNeverAcquired()
    }

    constructor (handlers: seq<HandlerId>)
      ensures Valid()
      ensures this.handlers == handlers && dispatched == [] && emitted == []
      ensures !acquiredAudioFocus && !appIsPaused && shouldDuckAudio && !isDuckingAudio && !staysActiveInBackground
      ensures soundMapKeyCount == 0 && audios == {}
      ensures !hasRecorder && recorderCommands == []
    {
      acquiredAudioFocus := false;
      appIsPaused := false;
      shouldDuckAudio := true;
      isDuckingAudio := false;
      staysActiveInBackground := false;
      soundMapKeyCount := 0;
      audios := {};
      issuedKeys := [];
      this.handlers := handlers;
      dispatched := [];
      emitted := [];
      hasRecorder := false;
      recordingFilePath := None;
      uptimeOfLastStartResume := 0;
      durationAlreadyRecorded := 0;
      isRecording := false;
      isPaused := false;
      recorderCommands := [];
    }

    // -- Lifecycle --------------------------------------------------------------

    /** onHostResume: resumes every handler, but only when the app was paused. */
    method OnHostResume()
      modifies this`appIsPaused, this`dispatched
      ensures !appIsPaused
      ensures dispatched == old(dispatched) + (if old(appIsPaused) then Broadcast(handlers, OnResume) else [])
    {
      if appIsPaused {
        appIsPaused := false;
        var sent := NotifyHandlers(handlers, OnResume);
        dispatched := dispatched + sent;
      }
    }

    /** onHostPause: pauses every handler, but only when the app was not already paused. */
    method OnHostPause()
      modifies this`appIsPaused, this`dispatched
      ensures appIsPaused
      ensures dispatched == old(dispatched) + (if !old(appIsPaused) then Broadcast(handlers, OnPause) else [])
    {
      if !appIsPaused {
        appIsPaused := true;
        var sent := NotifyHandlers(handlers, OnPause);
        dispatched := dispatched + sent;
      }
    }

    /**
     * getVolumeForDuckAndFocus as AVManager answers it: the policy applied to its own
     * two flags. Since neither flag is ever set, every reachable AVManager answers 0.
     */
    function VolumeFor(isMuted: bool, volume: real): (r: real)
      reads this
      ensures r == VolumeForDuckAndFocus(FocusState(acquiredAudioFocus, isDuckingAudio), isMuted, volume)
      ensures FocusNeverAcquired() ==> r == 0.0
    {
      VolumeForDuckAndFocus(FocusState(acquiredAudioFocus, isDuckingAudio), isMuted, volume)
    }

    /** setAudioMode: turning ducking off stops any ducking in progress and re-applies every handler's volume. */
    method SetAudioMode(shouldDuck: bool, staysActive: bool)
      modifies this`shouldDuckAudio, this`isDuckingAudio, this`dispatched, this`staysActiveInBackground
      ensures old(FocusNeverAcquired()) ==> FocusNeverAcquired()
      ensures shouldDuckAudio == shouldDuck && staysActiveInBackground == staysActive
      ensures !shouldDuck ==> !isDuckingAudio && dispatched == old(dispatched) + Broadcast(handlers, UpdateVolumeMuteAndDuck)
      ensures shouldDuck ==> isDuckingAudio == old(isDuckingAudio) && dispatched == old(dispatched)
    {
      shouldDuckAudio := shouldDuck;
      if !shouldDuckAudio {
        isDuckingAudio := false;
        var sent := NotifyHandlers(handlers, UpdateVolumeMuteAndDuck);
        dispatched := dispatched + sent;
      }
      staysActiveInBackground := staysActive;
    }

    // -- Sounds -----------------------------------------------------------------

    /**
     * loadForSound: the sound takes the current counter as its key and the counter
     * moves on; the key is registered, and unregistered again when the load fails.
     */
    method LoadForSound(loadSucceeds: bool) returns (key: int)
      requires KeysValid()
      modifies this`soundMapKeyCount, this`audios, this`issuedKeys
      ensures KeysValid()
      ensures key == old(soundMapKeyCount) && soundMapKeyCount == key + 1
      ensures issuedKeys == old(issuedKeys) + [key]
      ensures key !in old(audios) && forall k :: k in old(audios) ==> k < key
      ensures audios == if loadSucceeds then old(audios) + {key} else old(audios) - {key}
    {
      key := soundMapKeyCount;
      soundMapKeyCount := soundMapKeyCount + 1;
      issuedKeys := issuedKeys + [key];
      audios := audios + {key};
      if !loadSucceeds {
        audios := audios - {key};
      }
    }

    // -- Recorder ---------------------------------------------------------------

    /** getAudioRecorderDurationMillis: already-recorded time, plus the running stretch while recording. */
    function DurationMillis(now: int): (d: int)
      reads this
      ensures !hasRecorder ==> d == 0
      ensures hasRecorder && !(isRecording && uptimeOfLastStartResume > 0) ==> d == durationAlreadyRecorded
      ensures hasRecorder && isRecording && uptimeOfLastStartResume > 0 ==> d == durationAlreadyRecorded + (now - uptimeOfLastStartResume)
      ensures RecorderValid() && now >= uptimeOfLastStartResume ==> d >= durationAlreadyRecorded >= 0
    {
      if !hasRecorder then 0
      else durationAlreadyRecorded + (if isRecording && uptimeOfLastStartResume > 0 then now - uptimeOfLastStartResume else 0)
    }

    /** getAudioRecorderStatus */
    function Status(now: int): (s: RecorderStatus)
      reads this
      ensures s.NoRecorderStatus? <==> !hasRecorder
      ensures hasRecorder ==> s.isRecording == isRecording && s.durationMillis == Int32Cast(DurationMillis(now))
    {
      if hasRecorder then RecorderStatus(isRecording, Int32Cast(DurationMillis(now))) else NoRecorderStatus
    }

    /** checkAudioRecorderExistsOrReject: the rejection owed to the caller when there is no recorder. */
    function CheckAudioRecorderExistsOrReject(): (r: Option<Reply>)
      reads this
      ensures r == None <==> hasRecorder
      ensures r != None ==> r.value == NoRecorder
    {
      if hasRecorder then None else Some(NoRecorder)
    }

    /** removeAudioRecorder: stops (ignoring failures) and releases any recorder, then resets all recorder state. */
    method RemoveAudioRecorder()
      modifies this`hasRecorder, this`recordingFilePath, this`isRecording, this`isPaused,
               this`durationAlreadyRecorded, this`uptimeOfLastStartResume, this`recorderCommands
      ensures RecorderValid() && !hasRecorder
      ensures recordingFilePath == None && !isRecording && !isPaused
      ensures durationAlreadyRecorded == 0 && uptimeOfLastStartResume == 0
      ensures recorderCommands == old(recorderCommands) + (if old(hasRecorder) then [Stop, Release] else [])
    {
      if hasRecorder {
        recorderCommands := recorderCommands + [Stop, Release];
        hasRecorder := false;
      }
      recordingFilePath := None;
      isRecording := false;
      isPaused := false;
      durationAlreadyRecorded := 0;
      uptimeOfLastStartResume := 0;
    }

    /** onInfo: reaching the maximum file size unloads the recorder and tells JavaScript. */
    method OnInfo(what: int)
      modifies this`hasRecorder, this`recordingFilePath, this`isRecording, this`isPaused,
               this`durationAlreadyRecorded, this`uptimeOfLastStartResume, this`recorderCommands, this`emitted
      ensures what == MaxFileSizeReached ==>
        && RecorderValid() && !hasRecorder
        && recordingFilePath == None && !isRecording && !isPaused
        && durationAlreadyRecorded == 0 && uptimeOfLastStartResume == 0
        && recorderCommands == old(recorderCommands) + (if old(hasRecorder) then [Stop, Release] else [])
        && emitted == old(emitted) + ["Expo.Recording.recorderUnloaded"]
      ensures what != MaxFileSizeReached ==> unchanged(this)
    {
      if what == MaxFileSizeReached {
        RemoveAudioRecorder();
        emitted := emitted + ["Expo.Recording.recorderUnloaded"];
      }
    }

    /**
     * prepareAudioRecorder: with permission, discards any old recorder and prepares a
     * new one writing to `filePath`; a failed prepare rejects and discards it again.
     */
    method PrepareAudioRecorder(hasPermission: bool, filePath: string, prepareSucceeds: bool) returns (reply: Reply)
      modifies this`hasRecorder, this`recordingFilePath, this`isRecording, this`isPaused,
               this`durationAlreadyRecorded, this`uptimeOfLastStartResume, this`recorderCommands
      ensures hasPermission ==> RecorderValid()
      ensures !hasPermission ==> reply == MissingPermission && unchanged(this)
      ensures hasPermission && !prepareSucceeds ==>
        && reply == Reject("E_AUDIO_RECORDERNOTCREATED", "Prepare encountered an error: recorder not prepared")
        && !hasRecorder
        && recorderCommands == old(recorderCommands) + (if old(hasRecorder) then [Stop, Release] else []) + [Prepare(filePath), Stop, Release]
      ensures hasPermission && prepareSucceeds ==>
        && hasRecorder && recordingFilePath == Some(filePath)
        && !isRecording && !isPaused && durationAlreadyRecorded == 0 && uptimeOfLastStartResume == 0
        && recorderCommands == old(recorderCommands) + (if old(hasRecorder) then [Stop, Release] else []) + [Prepare(filePath)]
        && reply == ResolvePrepared(filePath, RecorderStatus(false, 0))
    {
      if !hasPermission {
        return MissingPermission;
      }
      RemoveAudioRecorder();
      recordingFilePath := Some(filePath);
      hasRecorder := true;
      recorderCommands := recorderCommands + [Prepare(filePath)];
      if !prepareSucceeds {
        reply := Reject("E_AUDIO_RECORDERNOTCREATED", "Prepare encountered an error: recorder not prepared");
        RemoveAudioRecorder();
        return;
      }
      reply := ResolvePrepared(filePath, Status(0));
    }

    /**
     * startAudioRecording: resumes a paused recorder when the platform supports it,
     * otherwise starts it; on success the running stretch begins at `now`.
     */
    method StartAudioRecording(hasPermission: bool, sdkAtLeastN: bool, startThrows: bool, now: int) returns (reply: Reply)
      requires RecorderValid() && now >= 0
      modifies this`uptimeOfLastStartResume, this`isRecording, this`isPaused, this`recorderCommands
      ensures RecorderValid()
      ensures !hasPermission ==> reply == MissingPermission && unchanged(this)
      ensures hasPermission && !hasRecorder ==> reply == NoRecorder && unchanged(this)
      ensures hasPermission && hasRecorder ==>
        recorderCommands == old(recorderCommands) + [if old(isPaused) && sdkAtLeastN then Resume else Start]
      ensures hasPermission && hasRecorder && startThrows ==>
        && reply == Reject("E_AUDIO_RECORDING", "Start encountered an error: recording not started")
        && isRecording == old(isRecording) && isPaused == old(isPaused) && uptimeOfLastStartResume == old(uptimeOfLastStartResume)
      ensures hasPermission && hasRecorder && !startThrows ==>
        && isRecording && !isPaused && uptimeOfLastStartResume == now
        && reply == ResolveStatus(Status(now))
    {
      if !hasPermission {
        return MissingPermission;
      }
      var rejected := CheckAudioRecorderExistsOrReject();
      if rejected.Some? {
        return rejected.value;
      }
      recorderCommands := recorderCommands + [if isPaused && sdkAtLeastN then Resume else Start];
      if startThrows {
        return Reject("E_AUDIO_RECORDING", "Start encountered an error: recording not started");
      }
      uptimeOfLastStartResume := now;
      isRecording := true;
      isPaused := false;
      reply := ResolveStatus(Status(now));
    }

    /**
     * pauseAudioRecording: unsupported before Android N; on success the running
     * stretch is folded into the already-recorded duration.
     */
    method PauseAudioRecording(sdkAtLeastN: bool, pauseThrows: bool, now: int) returns (reply: Reply)
      requires RecorderValid() && now >= uptimeOfLastStartResume
      modifies this`durationAlreadyRecorded, this`isRecording, this`isPaused, this`recorderCommands
      ensures RecorderValid()
      ensures !hasRecorder ==> reply == NoRecorder && unchanged(this)
      ensures hasRecorder && !sdkAtLeastN ==>
        reply == Reject("E_AUDIO_VERSIONINCOMPATIBLE", "Pausing an audio recording is unsupported on Android devices running SDK < 24.")
        && unchanged(this)
      ensures hasRecorder && sdkAtLeastN ==> recorderCommands == old(recorderCommands) + [Pause]
      ensures hasRecorder && sdkAtLeastN && pauseThrows ==>
        && reply == Reject("E_AUDIO_RECORDINGPAUSE", "Pause encountered an error: recording not paused")
        && durationAlreadyRecorded == old(durationAlreadyRecorded) && isRecording == old(isRecording) && isPaused == old(isPaused)
      ensures hasRecorder && sdkAtLeastN && !pauseThrows ==>
        && durationAlreadyRecorded == old(DurationMillis(now))
        && !isRecording && isPaused
        && reply == ResolveStatus(RecorderStatus(false, Int32Cast(durationAlreadyRecorded)))
    {
      var rejected := CheckAudioRecorderExistsOrReject();
      if rejected.Some? {
        return rejected.value;
      }
      if !sdkAtLeastN {
        return Reject("E_AUDIO_VERSIONINCOMPATIBLE", "Pausing an audio recording is unsupported on Android devices running SDK < 24.");
      }
      recorderCommands := recorderCommands + [Pause];
      if pauseThrows {
        return Reject("E_AUDIO_RECORDINGPAUSE", "Pause encountered an error: recording not paused");
      }
      durationAlreadyRecorded := DurationMillis(now);
      isRecording := false;
      isPaused := true;
      reply := ResolveStatus(Status(now));
    }

    /** stopAudioRecording: on success folds the running stretch into the duration and leaves the recorder idle. */
    method StopAudioRecording(stopThrows: bool, now: int) returns (reply: Reply)
      requires RecorderValid() && now >= uptimeOfLastStartResume
      modifies this`durationAlreadyRecorded, this`isRecording, this`isPaused, this`recorderCommands
      ensures RecorderValid()
      ensures !hasRecorder ==> reply == NoRecorder && unchanged(this)
      ensures hasRecorder ==> recorderCommands == old(recorderCommands) + [Stop]
      ensures hasRecorder && stopThrows ==>
        && reply == Reject("E_AUDIO_RECORDINGSTOP", "Stop encountered an error: recording not stopped")
        && durationAlreadyRecorded == old(durationAlreadyRecorded) && isRecording == old(isRecording) && isPaused == old(isPaused)
      ensures hasRecorder && !stopThrows ==>
        && durationAlreadyRecorded == old(DurationMillis(now))
        && !isRecording && !isPaused
        && reply == ResolveStatus(RecorderStatus(false, Int32Cast(durationAlreadyRecorded)))
    {
      var rejected := CheckAudioRecorderExistsOrReject();
      if rejected.Some? {
        return rejected.value;
      }
      recorderCommands := recorderCommands + [Stop];
      if stopThrows {
        return Reject("E_AUDIO_RECORDINGSTOP", "Stop encountered an error: recording not stopped");
      }
      durationAlreadyRecorded := DurationMillis(now);
      isRecording := false;
      isPaused := false;
      reply := ResolveStatus(Status(now));
    }

    /** getAudioRecordingStatus */
    method GetAudioRecordingStatus(now: int) returns (reply: Reply)
      ensures !hasRecorder ==> reply == NoRecorder
      ensures hasRecorder ==> reply.ResolveStatus? && reply.status.RecorderStatus?
      ensures hasRecorder ==> reply.status.isRecording == isRecording && reply.status.durationMillis == Int32Cast(DurationMillis(now))
    {
      var rejected := CheckAudioRecorderExistsOrReject();
      if rejected.Some? {
        return rejected.value;
      }
      reply := ResolveStatus(Status(now));
    }

    /** unloadAudioRecorder */
    method UnloadAudioRecorder() returns (reply: Reply)
      modifies this`hasRecorder, this`recordingFilePath, this`isRecording, this`isPaused,
               this`durationAlreadyRecorded, this`uptimeOfLastStartResume, this`recorderCommands
      ensures !old(hasRecorder) ==> reply == NoRecorder && unchanged(this)
      ensures old(hasRecorder) ==>
        && reply == ResolveNull && RecorderValid() && !hasRecorder
        && recorderCommands == old(recorderCommands) + [Stop, Release]
    {
      var rejected := CheckAudioRecorderExistsOrReject();
      if rejected.Some? {
        return rejected.value;
      }
      RemoveAudioRecorder();
      reply := ResolveNull;
    }
  }

  /**
   * A recording that is started at `t0`, paused at `t1`, resumed at `t2` and stopped
   * at `t3` is credited with exactly the two stretches it ran.
   */
  method RecordingSessionDuration(m: AVManager, t0: int, t1: int, t2: int, t3: int)
    requires m.RecorderValid() && m.hasRecorder && !m.isRecording && !m.isPaused && m.durationAlreadyRecorded == 0
    requires 0 < t0 <= t1 <= t2 <= t3
    modifies m
    ensures m.durationAlreadyRecorded == (t1 - t0) + (t3 - t2)
    ensures !m.isRecording && !m.isPaused
  {
    var r := m.StartAudioRecording(true, true, false, t0);
    r := m.PauseAudioRecording(true, false, t1);
    r := m.StartAudioRecording(true, true, false, t2);
    assert m.recorderCommands[|m.recorderCommands| - 1] == Resume;
    r := m.StopAudioRecording(false, t3);
  }

  /**
   * Whatever audio mode is set and however the host is paused and resumed, a fresh
   * AVManager answers every getVolumeForDuckAndFocus query with 0.
   */
  method VolumeAfterAudioMode(handlers: seq<HandlerId>, shouldDuck: bool, staysActive: bool,
                              isMuted: bool, volume: real) returns (r: real)
    ensures r == 0.0
  {
    var m := new AVManager(handlers);
    m.OnHostPause();
    m.SetAudioMode(shouldDuck, staysActive);
    m.OnHostResume();
    r := m.VolumeFor(isMuted, volume);
  }
}
