/**
 * expo-av's Android PlayerManager (PlayerManager.kt): keeps one playback
 * Params value, reconciles it against the underlying player, arbitrates for
 * audio focus through AVManager, drives the progress updater and forwards
 * player events to the registered listeners.
 *
 * The underlying player is the class ExpoPlayer: the fields PlayerManager reads,
 * and the two (looping, volume) it assigns. Every other interaction -- a
 * command to the player, a request to the focus arbiter, a post to or removal
 * from the progress scheduler, a delivery to a listener or promise -- is
 * appended to PlayerManager.log, so the order of effects is part of each
 * contract. Whether acquireAudioFocus succeeds is the input `granted`.
 */
module Player {
  import opened Wrappers
  import AV

  // ---------------------------------------------------------------------------
  // Parameters and status
  // ---------------------------------------------------------------------------

  /** The desired playback parameters; replaced wholesale, never mutated in place. */
  datatype Params = Params(
    shouldPlay: bool,
    rate: real,
    shouldCorrectPitch: bool,
    volume: real,
    isMuted: bool,
    isLooping: bool,
    updateInterval: int)

  /** `Params()`: paused, normal speed, full volume, unmuted, not looping, 500 ms progress interval. */
  const DefaultParams := Params(false, 1.0, false, 1.0, false, false, 500)

  /** A partial update of Params: an absent field keeps its previous value. */
  datatype ParamsUpdate = ParamsUpdate(
    shouldPlay: Option<bool>,
    rate: Option<real>,
    shouldCorrectPitch: Option<bool>,
    volume: Option<real>,
    isMuted: Option<bool>,
    isLooping: Option<bool>,
    updateInterval: Option<int>)

  function Pick<T>(o: Option<T>, previous: T): T
  {
    if o.Some? then o.value else previous
  }

  /** Params.update: overrides exactly the fields present in `u`. */
  function Update(p: Params, u: ParamsUpdate): (r: Params)
    ensures u.shouldPlay.None? ==> r.shouldPlay == p.shouldPlay
    ensures u.shouldPlay.Some? ==> r.shouldPlay == u.shouldPlay.value
    ensures u.rate.None? ==> r.rate == p.rate
    ensures u.rate.Some? ==> r.rate == u.rate.value
    ensures u.shouldCorrectPitch.None? ==> r.shouldCorrectPitch == p.shouldCorrectPitch
    ensures u.shouldCorrectPitch.Some? ==> r.shouldCorrectPitch == u.shouldCorrectPitch.value
    ensures u.volume.None? ==> r.volume == p.volume
    ensures u.volume.Some? ==> r.volume == u.volume.value
    ensures u.isMuted.None? ==> r.isMuted == p.isMuted
    ensures u.isMuted.Some? ==> r.isMuted == u.isMuted.value
    ensures u.isLooping.None? ==> r.isLooping == p.isLooping
    ensures u.isLooping.Some? ==> r.isLooping == u.isLooping.value
    ensures u.updateInterval.None? ==> r.updateInterval == p.updateInterval
    ensures u.updateInterval.Some? ==> r.updateInterval == u.updateInterval.value
  {
    Params(
      Pick(u.shouldPlay, p.shouldPlay),
      Pick(u.rate, p.rate),
      Pick(u.shouldCorrectPitch, p.shouldCorrectPitch),
      Pick(u.volume, p.volume),
      Pick(u.isMuted, p.isMuted),
      Pick(u.isLooping, p.isLooping),
      Pick(u.updateInterval, p.updateInterval))
  }

  function PickLater<T>(earlier: Option<T>, later: Option<T>): Option<T>
  {
    if later.Some? then later else earlier
  }

  /** The single update equivalent to applying `u1`, then `u2`. */
  function Then(u1: ParamsUpdate, u2: ParamsUpdate): ParamsUpdate
  {
    ParamsUpdate(
      PickLater(u1.shouldPlay, u2.shouldPlay),
      PickLater(u1.rate, u2.rate),
      PickLater(u1.shouldCorrectPitch, u2.shouldCorrectPitch),
      PickLater(u1.volume, u2.volume),
      PickLater(u1.isMuted, u2.isMuted),
      PickLater(u1.isLooping, u2.isLooping),
      PickLater(u1.updateInterval, u2.updateInterval))
  }

  /** Successive updates compose: updating by u1 then u2 is updating once by their merge. */
  lemma UpdateSequential(p: Params, u1: ParamsUpdate, u2: ParamsUpdate)
    ensures Update(Update(p, u1), u2) == Update(p, Then(u1, u2))
  {
  }

  /** A snapshot of the player's observable state. */
  datatype Status = Status(
    isLoaded: bool,
    durationMillis: int,
    positionMillis: int,
    isPlaying: bool,
    isBuffering: bool,
    playableDurationMillis: int,
    didJustFinish: bool)

  /** shouldPlayerPlay: play only when asked to and at a positive rate. */
  predicate ShouldPlayerPlay(p: Params): (b: bool)
    ensures b ==> p.shouldPlay
    ensures p.rate <= 0.0 ==> !b
    ensures p.shouldPlay && p.rate > 0.0 ==> b
  {
    p.shouldPlay && p.rate > 0.0
  }

  /** A rate of zero (or below) always means paused, whatever shouldPlay says. */
  lemma NonPositiveRateMeansPaused(p: Params)
    requires p.rate <= 0.0
    ensures !ShouldPlayerPlay(p)
    ensures forall granted: bool :: ReconcileCommands(p, granted) == [PauseImmediately]
  {
  }

  // ---------------------------------------------------------------------------
  // Effects
  // ---------------------------------------------------------------------------

  /** Everything PlayerManager does outside its own fields, in the order it does it. */
  datatype Event =
    // commands to the underlying player
    | LoadMedia
    | PauseImmediately
    | StartPlayback(isMuted: bool, rate: real, shouldCorrectPitch: bool)
    | SeekTo(positionMillis: int)
    | SetSurface(shouldPlayOnSurface: bool)
    | ReleasePlayer
    // requests to the audio-focus arbiter (AVManager)
    | AcquireAudioFocus
    | AbandonAudioFocusIfUnused
    // the progress scheduler (Handler.post / postDelayed / removeCallbacks)
    | PostProgressUpdater(delayMillis: int)
    | RemoveProgressUpdater
    // deliveries to listeners and promises
    | StatusUpdateDelivered(status: Status)
    | ErrorDelivered(message: string)
    | VideoSizeDelivered(width: int, height: int)
    | PromiseResolved(resolvedParams: Params)
    | PromiseRejected(code: string, message: string)
    | LoadSucceeded(loadedStatus: Status)
    | LoadFailed(loadError: string)

  predicate IssuesPlay(events: seq<Event>)
  {
    exists i :: 0 <= i < |events| && events[i].StartPlayback?
  }

  /**
   * The commands setParams issues once the new params are stored: a pause when the
   * player should not play; otherwise a focus request, then (if focus was granted) a
   * play, and in both cases a final abandonAudioFocusIfUnused.
   */
  function ReconcileCommands(p: Params, granted: bool): (cmds: seq<Event>)
    ensures !ShouldPlayerPlay(p) ==> cmds == [PauseImmediately]
    ensures AcquireAudioFocus in cmds <==> ShouldPlayerPlay(p)
    ensures PauseImmediately in cmds <==> !ShouldPlayerPlay(p)
    ensures IssuesPlay(cmds) <==> ShouldPlayerPlay(p) && granted
    ensures IssuesPlay(cmds) ==> StartPlayback(p.isMuted, p.rate, p.shouldCorrectPitch) in cmds
    ensures ShouldPlayerPlay(p) ==> cmds[0] == AcquireAudioFocus && cmds[|cmds| - 1] == AbandonAudioFocusIfUnused
    ensures ShouldPlayerPlay(p) && granted ==>
      cmds == [AcquireAudioFocus, StartPlayback(p.isMuted, p.rate, p.shouldCorrectPitch), AbandonAudioFocusIfUnused]
    ensures ShouldPlayerPlay(p) && !granted ==> cmds == [AcquireAudioFocus, AbandonAudioFocusIfUnused]
  {
    if !ShouldPlayerPlay(p) then [PauseImmediately]
    else if granted then
      var cmds := [AcquireAudioFocus, StartPlayback(p.isMuted, p.rate, p.shouldCorrectPitch), AbandonAudioFocusIfUnused];
      assert cmds[1].StartPlayback?;
      cmds
    else [AcquireAudioFocus, AbandonAudioFocusIfUnused]
  }

  /** The text the public setParams rejects a promise with when the update itself throws. */
  const SetStatusFailedMessage := "Encountered an error while setting status!"

  /** setParams reports a focus error exactly when it tried to play and focus was refused. */
  predicate ReconcileFails(p: Params, granted: bool)
  {
    ShouldPlayerPlay(p) && !granted
  }

  /** The SetParamsCompletionListener a caller of setParams supplies. */
  datatype Completion =
    | ToPromise          // setParams(arguments, promise) with a promise
    | ToStatusListener   // setParams(arguments, null)
    | ToLoadListener     // the initial setParams inside load

  /** callStatusUpdateListenerWithStatus: only a registered status listener receives anything. */
  function StatusNotify(s: Status, hasStatusListener: bool): (r: seq<Event>)
    ensures |r| <= 1
    ensures r != [] <==> hasStatusListener
    ensures r != [] ==> r[0] == StatusUpdateDelivered(s)
  {
    if hasStatusListener then [StatusUpdateDelivered(s)] else []
  }

  /**
   * onSetStatusError of each completion: the promise is rejected with the error text,
   * the status listener is notified, and a load reports success regardless.
   */
  function OnSetStatusError(c: Completion, message: string, s: Status, hasStatusListener: bool): (r: seq<Event>)
    ensures |r| <= 1
    ensures c.ToPromise? ==> r == [PromiseRejected("E_AV_SETSTATUS", message)]
    ensures c.ToStatusListener? ==> r == StatusNotify(s, hasStatusListener)
    ensures c.ToLoadListener? ==> r == [LoadSucceeded(s)]
    ensures forall i :: 0 <= i < |r| ==> !r[i].LoadFailed? && !r[i].PromiseResolved?
  {
    match c
    case ToPromise => [PromiseRejected("E_AV_SETSTATUS", message)]
    case ToStatusListener => StatusNotify(s, hasStatusListener)
    case ToLoadListener => [LoadSucceeded(s)]
  }

  /**
   * onSetStatusComplete of each completion: the promise is resolved with the new
   * params, the status listener is notified, and a load reports success.
   */
  function OnSetStatusComplete(c: Completion, p: Params, s: Status, hasStatusListener: bool): (r: seq<Event>)
    ensures |r| <= 1
    ensures c.ToPromise? ==> r == [PromiseResolved(p)]
    ensures c.ToStatusListener? ==> r == StatusNotify(s, hasStatusListener)
    ensures c.ToLoadListener? ==> r == [LoadSucceeded(s)]
    ensures forall i :: 0 <= i < |r| ==> !r[i].LoadFailed? && !r[i].PromiseRejected?
  {
    match c
    case ToPromise => [PromiseResolved(p)]
    case ToStatusListener => StatusNotify(s, hasStatusListener)
    case ToLoadListener => [LoadSucceeded(s)]
  }

  /**
   * Everything setParams appends: the commands, then -- when focus was refused --
   * onSetStatusError with the exception's text `focusError`, and in every case
   * onSetStatusComplete afterwards.
   */
  function SetParamsEvents(p: Params, granted: bool, focusError: string, c: Completion, s: Status,
                           hasStatusListener: bool): (r: seq<Event>)
    ensures !ReconcileFails(p, granted) ==> r == ReconcileCommands(p, granted) + OnSetStatusComplete(c, p, s, hasStatusListener)
    ensures ReconcileFails(p, granted) ==>
      r == [AcquireAudioFocus, AbandonAudioFocusIfUnused] + OnSetStatusError(c, focusError, s, hasStatusListener)
           + OnSetStatusComplete(c, p, s, hasStatusListener)
  {
    ReconcileCommands(p, granted)
      + (if ReconcileFails(p, granted) then OnSetStatusError(c, focusError, s, hasStatusListener) else [])
      + OnSetStatusComplete(c, p, s, hasStatusListener)
  }

  /**
   * When the player should not play, setParams pauses and never requests focus or
   * playback, whoever is told about the outcome.
   */
  lemma SetParamsWhenNotPlaying(p: Params, granted: bool, focusError: string, c: Completion, s: Status, hasStatusListener: bool)
    requires !ShouldPlayerPlay(p)
    ensures var r := SetParamsEvents(p, granted, focusError, c, s, hasStatusListener);
      r[0] == PauseImmediately && AcquireAudioFocus !in r && !IssuesPlay(r)
  {
    var r := SetParamsEvents(p, granted, focusError, c, s, hasStatusListener);
    var tail := OnSetStatusComplete(c, p, s, hasStatusListener);
    assert r == [PauseImmediately] + tail;
    assert forall i :: 0 <= i < |tail| ==> !tail[i].StartPlayback? && tail[i] != AcquireAudioFocus;
    assert forall i :: 1 <= i < |r| ==> r[i] == tail[i - 1];
  }

  /**
   * A refused focus request: no play command; focus is abandoned, then the promise is
   * rejected -- and afterwards also resolved, since onSetStatusComplete still fires.
   */
  lemma FocusRefusedRejectsThenResolves(p: Params, focusError: string, s: Status, hasStatusListener: bool)
    requires ShouldPlayerPlay(p)
    ensures SetParamsEvents(p, false, focusError, ToPromise, s, hasStatusListener) ==
      [AcquireAudioFocus, AbandonAudioFocusIfUnused, PromiseRejected("E_AV_SETSTATUS", focusError), PromiseResolved(p)]
    ensures !IssuesPlay(SetParamsEvents(p, false, focusError, ToPromise, s, hasStatusListener))
  {
  }

  /**
   * The initial setParams of a load always reports load success, and reports it a
   * second time when focus was refused; it never reports a load error.
   */
  lemma LoadReportsSuccessEvenOnFocusError(p: Params, granted: bool, focusError: string, s: Status, hasStatusListener: bool)
    ensures var r := SetParamsEvents(p, granted, focusError, ToLoadListener, s, hasStatusListener);
      && r[|r| - 1] == LoadSucceeded(s)
      && (forall e :: e in r ==> !e.LoadFailed?)
      && (ReconcileFails(p, granted) ==> r == [AcquireAudioFocus, AbandonAudioFocusIfUnused, LoadSucceeded(s), LoadSucceeded(s)])
  {
  }

  /**
   * acquireFocusAndPlay: nothing unless the player is loaded and should play; focus is
   * requested only when unmuted, and a refusal throws before anything else happens;
   * otherwise the player plays and the progress updater is posted.
   */
  function FocusAndPlayCommands(p: Params, loaded: bool, granted: bool): (cmds: seq<Event>)
    ensures !loaded || !ShouldPlayerPlay(p) ==> cmds == []
    ensures AcquireAudioFocus in cmds <==> loaded && ShouldPlayerPlay(p) && !p.isMuted
    ensures IssuesPlay(cmds) <==> loaded && ShouldPlayerPlay(p) && (p.isMuted || granted)
    ensures IssuesPlay(cmds) ==> StartPlayback(p.isMuted, p.rate, p.shouldCorrectPitch) in cmds && cmds[|cmds| - 1] == PostProgressUpdater(0)
    ensures PauseImmediately !in cmds && AbandonAudioFocusIfUnused !in cmds
    ensures loaded && ShouldPlayerPlay(p) && p.isMuted ==>
      cmds == [StartPlayback(p.isMuted, p.rate, p.shouldCorrectPitch), PostProgressUpdater(0)]
    ensures loaded && ShouldPlayerPlay(p) && !p.isMuted && !granted ==> cmds == [AcquireAudioFocus]
    ensures loaded && ShouldPlayerPlay(p) && !p.isMuted && granted ==>
      cmds == [AcquireAudioFocus, StartPlayback(p.isMuted, p.rate, p.shouldCorrectPitch), PostProgressUpdater(0)]
  {
    if !loaded || !ShouldPlayerPlay(p) then []
    else if p.isMuted then
      var cmds := [StartPlayback(p.isMuted, p.rate, p.shouldCorrectPitch), PostProgressUpdater(0)];
      assert cmds[0].StartPlayback?;
      cmds
    else if !granted then [AcquireAudioFocus]
    else
      var cmds := [AcquireAudioFocus, StartPlayback(p.isMuted, p.rate, p.shouldCorrectPitch), PostProgressUpdater(0)];
      assert cmds[1].StartPlayback?;
      cmds
  }

  /** acquireFocusAndPlay throws AudioFocusNotAcquiredException exactly when it asked for focus and was refused. */
  predicate FocusAndPlayThrows(p: Params, loaded: bool, granted: bool): (b: bool)
    ensures b <==> AcquireAudioFocus in FocusAndPlayCommands(p, loaded, granted) && !granted
    ensures b ==> !IssuesPlay(FocusAndPlayCommands(p, loaded, granted))
  {
    loaded && ShouldPlayerPlay(p) && !p.isMuted && !granted
  }

  /**
   * progressUpdateLoop: reschedules after the current interval only while the player
   * keeps progressing and the interval is positive; otherwise removes pending updates.
   */
  function ProgressDecision(continueUpdatingProgress: bool, updateInterval: int): (e: Event)
    ensures e.PostProgressUpdater? <==> continueUpdatingProgress && updateInterval > 0
    ensures e.PostProgressUpdater? ==> e.delayMillis == updateInterval && e.delayMillis > 0
    ensures !e.PostProgressUpdater? ==> e == RemoveProgressUpdater
  {
    if !continueUpdatingProgress || updateInterval <= 0 then RemoveProgressUpdater
    else PostProgressUpdater(updateInterval)
  }

  // ---------------------------------------------------------------------------
  // The underlying player and PlayerManager
  // ---------------------------------------------------------------------------

  /** The ExpoPlayer properties PlayerManager reads and assigns. */
  class ExpoPlayer {
    var loaded: bool
    var playing: bool
    var buffering: bool
    var looping: bool
    var volume: real
    var duration: int
    var currentPosition: int
    var playableDuration: Option<int>
    var continueUpdatingProgress: bool

    /** A player in whatever state the environment hands over. */
    constructor (loaded: bool, playing: bool, buffering: bool, looping: bool, volume: real, duration: int,
                 currentPosition: int, playableDuration: Option<int>, continueUpdatingProgress: bool)
      ensures this.loaded == loaded && this.playing == playing && this.buffering == buffering
      ensures this.looping == looping && this.volume == volume
      ensures this.duration == duration && this.currentPosition == currentPosition
      ensures this.playableDuration == playableDuration && this.continueUpdatingProgress == continueUpdatingProgress
    {
      this.loaded := loaded;
      this.playing := playing;
      this.buffering := buffering;
      this.duration := duration;
      this.currentPosition := currentPosition;
      this.playableDuration := playableDuration;
      this.continueUpdatingProgress := continueUpdatingProgress;
      this.looping := looping;
      this.volume := volume;
    }
  }

  class PlayerManager {
    const player: ExpoPlayer
    var params: Params
    var log: seq<Event>
    /** The number of ProgressUpdater runs posted to the handler and not yet run or removed. */
    var pendingUpdates: nat

    /** Which listener slots are filled. */
    var paramsUpdatedListener: bool
    var statusUpdateListener: bool
    var errorListener: bool
    var videoSizeUpdateListener: bool

    constructor (player: ExpoPlayer)
      ensures this.player == player && params == DefaultParams && log == [] && pendingUpdates == 0
      ensures !paramsUpdatedListener && !statusUpdateListener && !errorListener && !videoSizeUpdateListener
    {
      this.player := player;
      params := DefaultParams;
      log := [];
      pendingUpdates := 0;
      paramsUpdatedListener := false;
      statusUpdateListener := false;
      errorListener := false;
      videoSizeUpdateListener := false;
    }

    /** status: a fresh snapshot of the player; a missing playable duration reads as 0. */
    function CurrentStatus(): (s: Status)
      reads player
      ensures s.isLoaded == player.loaded && s.isPlaying == player.playing && s.isBuffering == player.buffering
      ensures s.durationMillis == player.duration && s.positionMillis == player.currentPosition
      ensures s.playableDurationMillis == (if player.playableDuration.Some? then player.playableDuration.value else 0)
      ensures !s.didJustFinish
    {
      Status(player.loaded, player.duration, player.currentPosition, player.playing, player.buffering,
             if player.playableDuration.Some? then player.playableDuration.value else 0, false)
    }

    /** isPlaying: loaded and playing. */
    function IsPlaying(): (b: bool)
      reads player
      ensures b <==> CurrentStatus().isLoaded && CurrentStatus().isPlaying
    {
      player.loaded && player.playing
    }

    /** requiresAudioFocus: focus is needed only while the player plays unmuted. */
    function RequiresAudioFocus(): (b: bool)
      reads this, player
      ensures b ==> player.playing
      ensures params.isMuted ==> !b
      ensures player.playing && !params.isMuted ==> b
    {
      player.playing && !params.isMuted
    }

    // -- Caller requests ----------------------------------------------------------

    /** play: asks for playback; every other parameter is kept. */
    method Play()
      modifies this`params
      ensures params == old(params).(shouldPlay := true)
    {
      params := params.(shouldPlay := true);
    }

    /** pause: asks for no playback; every other parameter is kept. */
    method Pause()
      modifies this`params
      ensures params == old(params).(shouldPlay := false)
    {
      params := params.(shouldPlay := false);
    }

    method SeekToPosition(positionMillis: int)
      modifies this`log
      ensures log == old(log) + [SeekTo(positionMillis)]
    {
      log := log + [SeekTo(positionMillis)];
    }

    /** setSurface: hands the surface to the player together with the current shouldPlay. */
    method SetSurfaceForPlayer()
      modifies this`log
      ensures log == old(log) + [SetSurface(params.shouldPlay)]
    {
      log := log + [SetSurface(params.shouldPlay)];
    }

    /** updateVolumeMuteAndDuck: applies the duck/focus policy to a loaded player only. */
    method UpdateVolumeMuteAndDuck(focus: AV.FocusState)
      modifies player`volume
      ensures player.volume == if player.loaded then AV.VolumeForDuckAndFocus(focus, params.isMuted, params.volume) else old(player.volume)
    {
      if player.loaded {
        player.volume := AV.VolumeForDuckAndFocus(focus, params.isMuted, params.volume);
      }
    }

    /**
     * The private setParams: stores `p`, copies its looping flag to the player, and
     * reconciles the player with it, reporting to `c` (onSetStatusError, if any, is
     * followed by onSetStatusComplete). `focusError` is the refusal exception's text.
     */
    method SetParamsWithCompletion(p: Params, c: Completion, granted: bool, focusError: string, focus: AV.FocusState)
      modifies this`params, this`log, player`looping, player`volume
      ensures params == p && player.looping == p.isLooping
      ensures player.volume ==
        if ShouldPlayerPlay(p) && granted && player.loaded then AV.VolumeForDuckAndFocus(focus, p.isMuted, p.volume)
        else old(player.volume)
      ensures log == old(log) + SetParamsEvents(p, granted, focusError, c, CurrentStatus(), statusUpdateListener)
    {
      params := p;
      player.looping := params.isLooping;
      Reconcile(granted, focus);
      Report(c, granted, focusError);
    }

    /** The completion calls that end setParams: onSetStatusError on a focus error, then onSetStatusComplete. */
    method Report(c: Completion, granted: bool, focusError: string)
      modifies this`log
      ensures log == old(log)
        + (if ReconcileFails(params, granted) then OnSetStatusError(c, focusError, CurrentStatus(), statusUpdateListener) else [])
        + OnSetStatusComplete(c, params, CurrentStatus(), statusUpdateListener)
    {
      var s := CurrentStatus();
      if ReconcileFails(params, granted) {
        log := log + OnSetStatusError(c, focusError, s, statusUpdateListener);
      }
      log := log + OnSetStatusComplete(c, params, s, statusUpdateListener);
    }

    /** The branch of setParams that follows storing the params: pause, or acquire focus and play. */
    method Reconcile(granted: bool, focus: AV.FocusState)
      modifies this`log, player`volume
      ensures log == old(log) + ReconcileCommands(params, granted)
      ensures player.volume ==
        if ShouldPlayerPlay(params) && granted && player.loaded then AV.VolumeForDuckAndFocus(focus, params.isMuted, params.volume)
        else old(player.volume)
    {
      if !ShouldPlayerPlay(params) {
        log := log + [PauseImmediately];
      } else {
        log := log + [AcquireAudioFocus];
        if granted {
          UpdateVolumeMuteAndDuck(focus);
          log := log + [StartPlayback(params.isMuted, params.rate, params.shouldCorrectPitch), AbandonAudioFocusIfUnused];
        } else {
          log := log + [AbandonAudioFocusIfUnused];
        }
      }
    }

    /**
     * The public setParams: merges `u` onto the current params and reconciles; the
     * outcome goes to the promise when there is one, else to the status listener.
     * When reading the update throws (`updateThrows`), nothing changes and only a
     * promise, if there is one, is rejected.
     */
    method SetParams(u: ParamsUpdate, hasPromise: bool, updateThrows: bool, granted: bool, focusError: string,
                     focus: AV.FocusState)
      modifies this`params, this`log, player`looping, player`volume
      ensures updateThrows ==>
        && params == old(params) && player.looping == old(player.looping) && player.volume == old(player.volume)
        && log == old(log) + (if hasPromise then [PromiseRejected("E_AV_SETSTATUS", SetStatusFailedMessage)] else [])
      ensures !updateThrows ==>
        && params == Update(old(params), u) && player.looping == params.isLooping
        && player.volume ==
             (if ShouldPlayerPlay(params) && granted && player.loaded then AV.VolumeForDuckAndFocus(focus, params.isMuted, params.volume)
              else old(player.volume))
        && log == old(log) + SetParamsEvents(params, granted, focusError, if hasPromise then ToPromise else ToStatusListener,
                                             CurrentStatus(), statusUpdateListener)
    {
      if updateThrows {
        if hasPromise {
          log := log + [PromiseRejected("E_AV_SETSTATUS", SetStatusFailedMessage)];
        }
        return;
      }
      var newParams := Update(params, u);
      SetParamsWithCompletion(newParams, if hasPromise then ToPromise else ToStatusListener, granted, focusError, focus);
    }

    /** load: asks the player to load; the outcome arrives later through OnLoaded or OnLoadError. */
    method Load()
      modifies this`log
      ensures log == old(log) + [LoadMedia]
    {
      log := log + [LoadMedia];
    }

    /**
     * The player's onLoaded callback: applies the initial update to the params as they
     * stand now and reports load success -- also when applying it failed to get audio
     * focus. Nothing catches a throw from reading the update (`updateThrows`): then no
     * outcome is reported and nothing changes.
     */
    method OnLoaded(u: ParamsUpdate, updateThrows: bool, granted: bool, focusError: string, focus: AV.FocusState)
      modifies this`params, this`log, player`looping, player`volume
      ensures updateThrows ==>
        && params == old(params) && player.looping == old(player.looping) && player.volume == old(player.volume)
        && log == old(log)
      ensures !updateThrows ==>
        && params == Update(old(params), u) && player.looping == params.isLooping
        && player.volume ==
             (if ShouldPlayerPlay(params) && granted && player.loaded then AV.VolumeForDuckAndFocus(focus, params.isMuted, params.volume)
              else old(player.volume))
        && log == old(log) + SetParamsEvents(params, granted, focusError, ToLoadListener, CurrentStatus(), statusUpdateListener)
        && LoadSucceeded(CurrentStatus()) in log[|old(log)|..]
    {
      if !updateThrows {
        SetParamsWithCompletion(Update(params, u), ToLoadListener, granted, focusError, focus);
      }
    }

    /** The player's onLoadError callback: the error is forwarded and nothing else changes. */
    method OnLoadError(message: string)
      modifies this`log
      ensures log == old(log) + [LoadFailed(message)]
    {
      log := log + [LoadFailed(message)];
    }

    /** release: stops progress updates and releases the player. */
    method Release()
      modifies this`log, this`pendingUpdates
      ensures pendingUpdates == 0
      ensures log == old(log) + [RemoveProgressUpdater, ReleasePlayer]
    {
      log := log + [RemoveProgressUpdater];
      pendingUpdates := 0;
      log := log + [ReleasePlayer];
    }

    // -- Listeners ------------------------------------------------------------------

    /**
     * setStatusUpdateListener: fills the params-updated slot (not the status slot) and
     * starts progress updates.
     */
    method SetStatusUpdateListener()
      modifies this`paramsUpdatedListener, this`log, this`pendingUpdates
      ensures paramsUpdatedListener && statusUpdateListener == old(statusUpdateListener)
      ensures pendingUpdates == old(pendingUpdates) + 1
      ensures log == old(log) + [PostProgressUpdater(0)]
    {
      paramsUpdatedListener := true;
      log := log + [PostProgressUpdater(0)];
      pendingUpdates := pendingUpdates + 1;
    }

    method SetErrorListener()
      modifies this`errorListener
      ensures errorListener
    {
      errorListener := true;
    }

    method SetVideoSizeUpdateListener()
      modifies this`videoSizeUpdateListener
      ensures videoSizeUpdateListener
    {
      videoSizeUpdateListener := true;
    }

    // -- Progress updates -------------------------------------------------------------

    /**
     * One run of the ProgressUpdater the handler had pending. When its weak reference
     * still resolves (`alive`), it notifies the status listener and then reschedules
     * or stops as ProgressDecision says; otherwise it does nothing.
     */
    method ProgressUpdaterRun(alive: bool)
      requires pendingUpdates > 0
      modifies this`log, this`pendingUpdates
      ensures !alive ==> log == old(log) && pendingUpdates == old(pendingUpdates) - 1
      ensures alive ==> log == old(log) + StatusNotify(CurrentStatus(), statusUpdateListener)
                                      + [ProgressDecision(player.continueUpdatingProgress, params.updateInterval)]
      ensures alive && ProgressDecision(player.continueUpdatingProgress, params.updateInterval).PostProgressUpdater? ==>
        pendingUpdates == old(pendingUpdates)
      ensures alive && ProgressDecision(player.continueUpdatingProgress, params.updateInterval) == RemoveProgressUpdater ==>
        pendingUpdates == 0
    {
      pendingUpdates := pendingUpdates - 1;
      if alive {
        log := log + StatusNotify(CurrentStatus(), statusUpdateListener);
        ProgressUpdateLoop();
      }
    }

    /** progressUpdateLoop */
    method ProgressUpdateLoop()
      modifies this`log, this`pendingUpdates
      ensures log == old(log) + [ProgressDecision(player.continueUpdatingProgress, params.updateInterval)]
      ensures pendingUpdates == if player.continueUpdatingProgress && params.updateInterval > 0 then old(pendingUpdates) + 1 else 0
    {
      if !player.continueUpdatingProgress || params.updateInterval <= 0 {
        log := log + [RemoveProgressUpdater];
        pendingUpdates := 0;
      } else {
        log := log + [PostProgressUpdater(params.updateInterval)];
        pendingUpdates := pendingUpdates + 1;
      }
    }

    // -- Audio events -------------------------------------------------------------------

    /** handleAudioFocusInterruptionBegan: unmuted playback pauses and stops progress updates; params stay. */
    method HandleAudioFocusInterruptionBegan()
      modifies this`log, this`pendingUpdates
      ensures !params.isMuted ==> log == old(log) + [PauseImmediately, RemoveProgressUpdater] && pendingUpdates == 0
      ensures params.isMuted ==> log == old(log) && pendingUpdates == old(pendingUpdates)
    {
      if !params.isMuted {
        log := log + [PauseImmediately];
        log := log + [RemoveProgressUpdater];
        pendingUpdates := 0;
      }
    }

    /** acquireFocusAndPlay; `threw` is the AudioFocusNotAcquiredException. */
    method AcquireFocusAndPlay(granted: bool, focus: AV.FocusState) returns (threw: bool)
      modifies this`log, this`pendingUpdates, player`volume
      ensures threw == FocusAndPlayThrows(params, player.loaded, granted)
      ensures log == old(log) + FocusAndPlayCommands(params, player.loaded, granted)
      ensures pendingUpdates == old(pendingUpdates) + (if IssuesPlay(FocusAndPlayCommands(params, player.loaded, granted)) then 1 else 0)
      ensures player.volume ==
        if IssuesPlay(FocusAndPlayCommands(params, player.loaded, granted)) then AV.VolumeForDuckAndFocus(focus, params.isMuted, params.volume)
        else old(player.volume)
    {
      threw := false;
      if !player.loaded || !ShouldPlayerPlay(params) {
        return;
      }
      if !params.isMuted {
        log := log + [AcquireAudioFocus];
        if !granted {
          threw := true;
          return;
        }
      }
      UpdateVolumeMuteAndDuck(focus);
      log := log + [StartPlayback(params.isMuted, params.rate, params.shouldCorrectPitch)];
      log := log + [PostProgressUpdater(0)];
      pendingUpdates := pendingUpdates + 1;
    }

    /** handleAudioFocusGained: tries to resume; a refused focus request is swallowed. */
    method HandleAudioFocusGained(granted: bool, focus: AV.FocusState)
      modifies this`log, this`pendingUpdates, player`volume
      ensures params == old(params)
      ensures log == old(log) + FocusAndPlayCommands(params, player.loaded, granted)
      ensures pendingUpdates == old(pendingUpdates) + (if IssuesPlay(FocusAndPlayCommands(params, player.loaded, granted)) then 1 else 0)
      ensures player.volume ==
        if IssuesPlay(FocusAndPlayCommands(params, player.loaded, granted)) then AV.VolumeForDuckAndFocus(focus, params.isMuted, params.volume)
        else old(player.volume)
    {
      var _ := AcquireFocusAndPlay(granted, focus);
    }

    /** onResume (host resumed): the same attempt as a focus gain, failures ignored. */
    method OnResume(granted: bool, focus: AV.FocusState)
      modifies this`log, this`pendingUpdates, player`volume
      ensures params == old(params)
      ensures log == old(log) + FocusAndPlayCommands(params, player.loaded, granted)
      ensures pendingUpdates == old(pendingUpdates) + (if IssuesPlay(FocusAndPlayCommands(params, player.loaded, granted)) then 1 else 0)
      ensures player.volume ==
        if IssuesPlay(FocusAndPlayCommands(params, player.loaded, granted)) then AV.VolumeForDuckAndFocus(focus, params.isMuted, params.volume)
        else old(player.volume)
    {
      var _ := AcquireFocusAndPlay(granted, focus);
    }

    /** onPause (host paused) and pauseImmediately. */
    method OnPause()
      modifies this`log
      ensures log == old(log) + [PauseImmediately]
    {
      log := log + [PauseImmediately];
    }

    // -- Player events ------------------------------------------------------------------

    /**
     * onCompleted: notifies the status listener (with didJustFinish left unset), then
     * lets go of focus unless the player loops.
     */
    method OnCompleted()
      modifies this`log
      ensures log == old(log) + StatusNotify(CurrentStatus(), statusUpdateListener)
                              + (if player.looping then [] else [AbandonAudioFocusIfUnused])
      ensures forall e :: e in log[|old(log)|..] && e.StatusUpdateDelivered? ==> !e.status.didJustFinish
    {
      log := log + StatusNotify(CurrentStatus(), statusUpdateListener);
      if !player.looping {
        log := log + [AbandonAudioFocusIfUnused];
      }
    }

    /** onSeekCompleted, onBufferingStart, onBuffering, onBufferingStop and statusUpdated. */
    method OnPlayerStatusEvent()
      modifies this`log
      ensures log == old(log) + StatusNotify(CurrentStatus(), statusUpdateListener)
    {
      log := log + StatusNotify(CurrentStatus(), statusUpdateListener);
    }

    /** onError: forwards the message to the error listener; without one the call fails (`!!`). */
    method OnError(message: string) returns (ok: bool)
      modifies this`log
      ensures ok == errorListener
      ensures log == old(log) + (if ok then [ErrorDelivered(message)] else [])
    {
      ok := errorListener;
      if ok {
        log := log + [ErrorDelivered(message)];
      }
    }

    /** videoSizeChanged */
    method VideoSizeChanged(width: int, height: int)
      modifies this`log
      ensures log == old(log) + (if videoSizeUpdateListener then [VideoSizeDelivered(width, height)] else [])
    {
      if videoSizeUpdateListener {
        log := log + [VideoSizeDelivered(width, height)];
      }
    }
  }

  /**
   * A load whose player finishes loading before it calls back, with an update asking
   * for playback and focus granted: the success report carries a loaded status, and
   * the volume is set by the duck/focus policy.
   */
  method LoadThenPlay(m: PlayerManager, focus: AV.FocusState)
    requires m.params == DefaultParams
    modifies m, m.player
    ensures m.params.shouldPlay && m.player.loaded
    ensures m.player.volume == AV.VolumeForDuckAndFocus(focus, false, 1.0)
    ensures LoadSucceeded(m.CurrentStatus()) in m.log && m.CurrentStatus().isLoaded
  {
    m.Load();
    m.player.loaded := true;
    m.OnLoaded(ParamsUpdate(Some(true), None, None, None, None, None, None), false, true, "", focus);
  }
}
