/** The playback controller hook of assets/js/hooks/shaka-player.js, which drives the
    audio element through the Shaka player with exact (Decimal) arithmetic.

    Its state is the cached media id, rate and loaded flag, the handles of the persist
    and update interval timers, the log of events pushed to the server, and the
    `pause` listeners that a reload registered to load the next media. The audio
    element's events reach the hook as calls: `play` runs PlaybackStarted, `pause`
    runs PauseEvent, `ended` runs PlaybackPaused, `ratechange` runs
    PlaybackRateChanged and `seeked` runs Seeked. The asynchronous `player.load` is one
    step whose outcome is a parameter. */
module ShakaPlayer {
  import opened Wrappers
  import opened Browser
  import opened LiveView

  /** The `data-*` attributes of the hook's element that it reads when loading: the
      media id (absent when there is none), the saved rate and position, and whether
      the `data-media-unloaded` attribute is present. */
  datatype Dataset = Dataset(mediaId: Option<string>, playbackRate: real, position: real,
                             unloaded: bool)

  /** How `player.load` settles: loaded, with the duration of the new media, or failed. */
  datatype LoadOutcome = Loaded(duration: real) | Failed

  const RateStep: real := 0.05
  const MinRate: real := 0.5
  const MaxRate: real := 3.0
  const PersistPeriod: real := 60000.0
  const UpdatePeriod: real := 1000.0

  /** The target of a relative seek: first raised to 0, then lowered to the duration. */
  function ClampTime(t: real, duration: real): (r: real)
    ensures duration >= 0.0 ==> 0.0 <= r <= duration
    ensures 0.0 <= t <= duration ==> r == t
    ensures t < 0.0 <= duration ==> r == 0.0
    ensures 0.0 <= duration < t ==> r == duration
  {
    var low := if t < 0.0 then 0.0 else t;
    if low > duration then duration else low
  }

  /** `incrementPlaybackRate`'s new rate: one step up, but never above 3. */
  function RateUp(rate: real): (r: real)
    ensures r <= MaxRate
    ensures r == rate + RateStep || r == MaxRate
    ensures rate + RateStep <= MaxRate ==> r == rate + RateStep
  {
    var next := rate + RateStep;
    if next > MaxRate then MaxRate else next
  }

  /** `decrementPlaybackRate`'s new rate: one step down, but never below 0.5. */
  function RateDown(rate: real): (r: real)
    ensures r >= MinRate
    ensures r == rate - RateStep || r == MinRate
    ensures rate - RateStep >= MinRate ==> r == rate - RateStep
  {
    var next := rate - RateStep;
    if next < MinRate then MinRate else next
  }

  /** Stepping keeps a rate within [0.5, 3], and a step up is undone by a step down
      (and the other way round) away from the bounds. */
  lemma RateStepsStayInRange(rate: real)
    requires MinRate <= rate <= MaxRate
    ensures MinRate <= RateUp(rate) <= MaxRate && MinRate <= RateDown(rate) <= MaxRate
    ensures rate <= MaxRate - RateStep ==> RateDown(RateUp(rate)) == rate
    ensures rate >= MinRate + RateStep ==> RateUp(RateDown(rate)) == rate
  {
  }

  /** What a load changes: the hook's cached id, rate and loaded flag, and the audio
      element's position, duration, paused flag and rate. */
  datatype Snap = Snap(mediaId: Option<string>, rate: Option<real>, loaded: bool,
                       currentTime: real, duration: real, paused: bool, audioRate: real)

  /** `loadMediaFromDataset`: with the unloaded marker only `loaded` is cleared.
      Otherwise id, rate and `loaded` are set before the load; a successful load
      leaves the element paused at the saved position with the new duration, applies the
      saved rate, and plays when `autoplay` is set; a failed one changes nothing more. */
  function AfterLoad(s: Snap, ds: Dataset, autoplay: bool, outcome: LoadOutcome): Snap {
    if ds.unloaded then s.(loaded := false)
    else
      var started := s.(mediaId := ds.mediaId, rate := Some(ds.playbackRate), loaded := true);
      match outcome
      case Failed => started
      case Loaded(d) =>
        started.(currentTime := ds.position, duration := d, audioRate := ds.playbackRate,
                 paused := !autoplay)
  }

  /** The loads run one after the other by the `pause` listeners, in registration order. */
  function AfterLoads(s: Snap, ds: Dataset, autoplays: seq<bool>, outcomes: seq<LoadOutcome>): Snap
    requires |autoplays| == |outcomes|
    decreases |autoplays|
  {
    if autoplays == [] then s
    else
      var n := |autoplays| - 1;
      AfterLoad(AfterLoads(s, ds, autoplays[..n], outcomes[..n]), ds, autoplays[n], outcomes[n])
  }

  /** The index of the last load that succeeded, if any. */
  function LastLoaded(outcomes: seq<LoadOutcome>): (r: Option<nat>)
    ensures r.Some? ==> r.value < |outcomes| && outcomes[r.value].Loaded?
    ensures r.Some? ==> forall j :: r.value < j < |outcomes| ==> outcomes[j].Failed?
    ensures r.None? ==> forall j :: 0 <= j < |outcomes| ==> outcomes[j].Failed?
    decreases |outcomes|
  {
    if outcomes == [] then None
    else if outcomes[|outcomes| - 1].Loaded? then Some(|outcomes| - 1)
    else LastLoaded(outcomes[..|outcomes| - 1])
  }

  /** Loads that all read the same dataset leave the id, rate and loaded flag that one
      load leaves; the element ends up playing exactly when the last load that
      succeeded had autoplay, and as it was when none succeeded. */
  lemma {:induction false} AfterLoadsLikeOne(s: Snap, ds: Dataset, autoplays: seq<bool>,
                                             outcomes: seq<LoadOutcome>)
    requires |autoplays| == |outcomes| > 0
    ensures var r := AfterLoads(s, ds, autoplays, outcomes);
      && r.mediaId == (if ds.unloaded then s.mediaId else ds.mediaId)
      && r.rate == (if ds.unloaded then s.rate else Some(ds.playbackRate))
      && r.loaded == !ds.unloaded
      && r.paused == (if ds.unloaded || LastLoaded(outcomes).None? then s.paused
                      else !autoplays[LastLoaded(outcomes).value])
    decreases |autoplays|
  {
    var n := |autoplays| - 1;
    var before := AfterLoads(s, ds, autoplays[..n], outcomes[..n]);
    if n > 0 {
      AfterLoadsLikeOne(s, ds, autoplays[..n], outcomes[..n]);
      if outcomes[n].Failed? {
        assert LastLoaded(outcomes) == LastLoaded(outcomes[..n]);
        if LastLoaded(outcomes).Some? {
          assert autoplays[..n][LastLoaded(outcomes).value] == autoplays[LastLoaded(outcomes).value];
        }
      }
    } else {
      assert before == s;
      assert outcomes[..0] == [];
    }
  }

  class Hook {
    const audio: AudioElement
    const window: BrowserWindow
    /** `this.el.dataset`, which the server rewrites. */
    var dataset: Dataset
    var mediaId: Option<string>
    var playbackRate: Option<real>
    var loaded: bool
    var persistInterval: Option<nat>
    var updateInterval: Option<nat>
    /** The events pushed to the server, oldest first. */
    var pushed: seq<Push>
    /** The once-only `pause` listeners added by reloadMedia, each with its autoplay flag. */
    var pendingLoads: seq<bool>

    ghost predicate Valid()
      reads this, window
    {
      window.Valid()
    }

    ghost function Snapshot(): Snap
      reads this, audio
    {
      Snap(mediaId, playbackRate, loaded, audio.currentTime, audio.duration, audio.paused,
           audio.playbackRate)
    }

    /** `mounted`: the listeners are wired up and the media named by the dataset is
        loaded without autoplay. */
    constructor Mounted(audio: AudioElement, window: BrowserWindow, dataset: Dataset,
                        outcome: LoadOutcome)
      requires window.Valid()
      modifies audio
      ensures Valid() && this.audio == audio && this.window == window && this.dataset == dataset
      ensures persistInterval.None? && updateInterval.None? && pushed == [] && pendingLoads == []
      ensures Snapshot() ==
        AfterLoad(Snap(None, None, false, old(audio.currentTime), old(audio.duration),
                       old(audio.paused), old(audio.playbackRate)), dataset, false, outcome)
    {
      this.audio := audio;
      this.window := window;
      this.dataset := dataset;
      mediaId := None;
      playbackRate := None;
      loaded := false;
      persistInterval := None;
      updateInterval := None;
      pushed := [];
      pendingLoads := [];
      new;
      LoadMediaFromDataset(dataset, false, outcome);
    }

    /** `playPause`: toggles on the element's own paused flag. */
    method PlayPause()
      modifies audio
      ensures audio.paused == !old(audio.paused)
      ensures audio.currentTime == old(audio.currentTime) && audio.playbackRate == old(audio.playbackRate)
    {
      if audio.paused {
        audio.Play();
      } else {
        audio.Pause();
      }
    }

    /** `seek`: an absolute seek. */
    method Seek(time: real)
      modifies audio`currentTime
      ensures audio.currentTime == time
    {
      audio.currentTime := time;
    }

    /** `seekRelative`: the offset is in listening seconds, so it is scaled by the cached
        rate; the target is clamped to [0, duration] and pushed to the server at once.
        Before any rate is cached the Decimal multiplication throws and nothing happens. */
    method SeekRelative(seconds: real)
      modifies this`pushed, audio`currentTime
      ensures playbackRate.Some? ==>
        && audio.currentTime == ClampTime(old(audio.currentTime) + seconds * playbackRate.value, audio.duration)
        && pushed == old(pushed) + [PlaybackTimeUpdated(audio.currentTime, false)]
      ensures playbackRate.None? ==> audio.currentTime == old(audio.currentTime) && pushed == old(pushed)
    {
      if playbackRate.None? {
        return;
      }
      var newTime := ClampTime(audio.currentTime + seconds * playbackRate.value, audio.duration);
      audio.currentTime := newTime;
      pushed := pushed + [PlaybackTimeUpdated(newTime, false)];
    }

    /** `seekRatio`: seeks to that fraction of the duration. */
    method SeekRatio(ratio: real)
      modifies audio`currentTime
      ensures audio.currentTime == audio.duration * ratio
    {
      audio.currentTime := audio.duration * ratio;
    }

    method IncrementPlaybackRate()
      modifies audio`playbackRate
      ensures audio.playbackRate == RateUp(old(audio.playbackRate))
    {
      audio.playbackRate := RateUp(audio.playbackRate);
    }

    method DecrementPlaybackRate()
      modifies audio`playbackRate
      ensures audio.playbackRate == RateDown(old(audio.playbackRate))
    {
      audio.playbackRate := RateDown(audio.playbackRate);
    }

    /** `setPlaybackRate`: applied as given, without the stepping bounds. */
    method SetPlaybackRate(rate: real)
      modifies audio`playbackRate
      ensures audio.playbackRate == rate
    {
      audio.playbackRate := rate;
    }

    /** `loadAndPlayMedia`: asks the server to switch media; the server's reply runs
        ReloadMedia with autoplay. */
    method LoadAndPlayMedia(id: string)
      modifies this`pushed
      ensures pushed == old(pushed) + [LoadMedia(id)]
    {
      pushed := pushed + [LoadMedia(id)];
    }

    /** `playbackStarted`: arms the persist timer (60 s) and the update timer (1 s) under
        new handles, installs the unload guard and reports the start. */
    method PlaybackStarted()
      requires Valid()
      modifies this`persistInterval, this`updateInterval, this`pushed, window
      ensures Valid()
      ensures persistInterval.Some? && updateInterval.Some?
      ensures persistInterval.value !in old(window.intervals)
      ensures updateInterval.value !in old(window.intervals)
      ensures persistInterval.value != updateInterval.value
      ensures window.intervals == old(window.intervals)
                [persistInterval.value := Timer(PersistPeriod, true)]
                [updateInterval.value := Timer(UpdatePeriod, false)]
      ensures window.unloadGuard
      ensures pushed == old(pushed) + [Push.PlaybackStarted]
    {
      var p := window.SetInterval(Timer(PersistPeriod, true));
      persistInterval := Some(p);
      var u := window.SetInterval(Timer(UpdatePeriod, false));
      updateInterval := Some(u);
      window.AddUnloadGuard();

      pushed := pushed + [Push.PlaybackStarted];
    }

    /** `playbackPaused` (also the `ended` handler): clears both timers and the unload
        guard and reports the position. */
    method PlaybackPaused()
      requires Valid()
      modifies this`pushed, window
      ensures Valid()
      ensures window.intervals == old(window.intervals) - Handles(persistInterval) - Handles(updateInterval)
      ensures !window.unloadGuard
      ensures pushed == old(pushed) + [Push.PlaybackPaused(audio.currentTime)]
    {
      window.ClearInterval(persistInterval);
      window.ClearInterval(updateInterval);
      window.RemoveUnloadGuard();

      pushed := pushed + [Push.PlaybackPaused(audio.currentTime)];
    }

    /** A timer armed by PlaybackStarted fires: the persist timer pushes the position
        as a durable write, the update timer as a plain update. */
    method IntervalFired(handle: nat)
      requires handle in window.intervals
      modifies this`pushed
      ensures pushed == old(pushed) + [PlaybackTimeUpdated(audio.currentTime, window.intervals[handle].persist)]
    {
      pushed := pushed + [PlaybackTimeUpdated(audio.currentTime, window.intervals[handle].persist)];
    }

    /** `playbackRateChanged`: reports and caches a non-zero rate that differs from the
        cached one; before a rate is cached the comparison throws and nothing happens. */
    method PlaybackRateChanged()
      modifies this`playbackRate, this`pushed
      ensures var rate := audio.playbackRate;
        if rate != 0.0 && old(playbackRate).Some? && old(playbackRate).value != rate then
          playbackRate == Some(rate) && pushed == old(pushed) + [Push.PlaybackRateChanged(rate)]
        else
          playbackRate == old(playbackRate) && pushed == old(pushed)
    {
      var rate := audio.playbackRate;
      if rate != 0.0 && playbackRate.Some? && playbackRate.value != rate {
        pushed := pushed + [Push.PlaybackRateChanged(rate)];
        playbackRate := Some(rate);
      }
    }

    /** `seeked`: a landed seek is pushed as a durable write. */
    method Seeked()
      modifies this`pushed
      ensures pushed == old(pushed) + [PlaybackTimeUpdated(audio.currentTime, true)]
    {
      pushed := pushed + [PlaybackTimeUpdated(audio.currentTime, true)];
    }

    /** `reloadMedia`: nothing when the dataset names the cached media. Otherwise, when
        playing, a once-only `pause` listener is added and the element is paused, so the
        load waits for the `pause` event; when paused, the load runs now (with the
        given outcome). */
    method ReloadMedia(autoplay: bool, outcome: LoadOutcome)
      requires Valid()
      modifies this, audio
      ensures Valid() && dataset == old(dataset)
      ensures pushed == old(pushed)
      ensures persistInterval == old(persistInterval) && updateInterval == old(updateInterval)
      ensures old(dataset.mediaId) == old(mediaId) ==>
        Snapshot() == old(Snapshot()) && pendingLoads == old(pendingLoads)
      ensures old(dataset.mediaId) != old(mediaId) && !old(audio.paused) ==>
        && pendingLoads == old(pendingLoads) + [autoplay]
        && Snapshot() == old(Snapshot()).(paused := true)
      ensures old(dataset.mediaId) != old(mediaId) && old(audio.paused) ==>
        && pendingLoads == old(pendingLoads)
        && Snapshot() == AfterLoad(old(Snapshot()), dataset, autoplay, outcome)
    {
      if dataset.mediaId == mediaId {
        return;
      }

      if !audio.paused {
        pendingLoads := pendingLoads + [autoplay];
        audio.Pause();
      } else {
        LoadMediaFromDataset(dataset, autoplay, outcome);
      }
    }

    /** The element's `pause` event: playbackPaused runs first (it was registered at
        mount), then every once-only listener in order, each loading the media the
        dataset names at that moment; the listeners are then gone. */
    method PauseEvent(outcomes: seq<LoadOutcome>)
      requires Valid() && |outcomes| == |pendingLoads|
      modifies this, audio, window
      ensures Valid() && dataset == old(dataset) && pendingLoads == []
      ensures persistInterval == old(persistInterval) && updateInterval == old(updateInterval)
      ensures window.intervals == old(window.intervals) - Handles(persistInterval) - Handles(updateInterval)
      ensures !window.unloadGuard
      ensures pushed == old(pushed) + [Push.PlaybackPaused(old(audio.currentTime))]
      ensures Snapshot() == AfterLoads(old(Snapshot()), dataset, old(pendingLoads), outcomes)
    {
      PlaybackPaused();

      var listeners := pendingLoads;
      pendingLoads := [];
      ghost var start := Snapshot();
      for k := 0 to |listeners|
        invariant Valid() && dataset == old(dataset) && pendingLoads == []
        invariant persistInterval == old(persistInterval) && updateInterval == old(updateInterval)
        invariant window.intervals == old(window.intervals) - Handles(persistInterval) - Handles(updateInterval)
        invariant !window.unloadGuard
        invariant pushed == old(pushed) + [Push.PlaybackPaused(old(audio.currentTime))]
        invariant Snapshot() == AfterLoads(start, dataset, listeners[..k], outcomes[..k])
      {
        LoadMediaFromDataset(dataset, listeners[k], outcomes[k]);
        assert listeners[..k + 1][..k] == listeners[..k];
        assert outcomes[..k + 1][..k] == outcomes[..k];
      }
      assert listeners[..|listeners|] == listeners;
      assert outcomes[..|outcomes|] == outcomes;
    }

    /** `loadMediaFromDataset`, with the load settled as `outcome` (see AfterLoad). */
    method LoadMediaFromDataset(ds: Dataset, autoplay: bool, outcome: LoadOutcome)
      modifies this`mediaId, this`playbackRate, this`loaded, audio
      ensures Snapshot() == AfterLoad(old(Snapshot()), ds, autoplay, outcome)
      ensures audio.readyState == old(audio.readyState)
    {
      if ds.unloaded {
        loaded := false;
        return;
      }

      mediaId := ds.mediaId;
      playbackRate := Some(ds.playbackRate);
      loaded := true;

      match outcome {
        case Failed =>
        case Loaded(d) =>
          audio.NewSource(d);
          audio.currentTime := ds.position;
          audio.playbackRate := playbackRate.value;
          if autoplay {
            audio.Play();
          }
      }
    }
  }

  /** The handle in an optional handle field, as a set. */
  function Handles(h: Option<nat>): set<nat> {
    if h.Some? then {h.value} else {}
  }

  /** Starting and then pausing playback leaves no timer running and no unload guard. */
  method StartThenPause() returns (timers: map<nat, Timer>, guard: bool, pushed: seq<Push>)
    ensures timers == map[] && !guard
    ensures pushed == [Push.PlaybackStarted, PlaybackPaused(0.0)]
  {
    var audio := new AudioElement(100.0);
    var window := new BrowserWindow();
    var hook := new Hook.Mounted(audio, window, Dataset(None, 1.0, 0.0, true), Failed);
    hook.PlaybackStarted();
    hook.PlaybackPaused();
    timers, guard, pushed := window.intervals, window.unloadGuard, hook.pushed;
  }

  /** A reload to other media while playing: the element is paused and nothing is
      loaded; the `pause` event then reports the position and loads the new media,
      which plays. A second reload naming the same media changes nothing. */
  method ReloadWhilePlaying() returns (idAfterReload: Option<string>, idAfterPause: Option<string>,
                                       playing: bool, pushed: seq<Push>)
    ensures idAfterReload == Some("a") && idAfterPause == Some("b") && playing
    ensures pushed == [Push.PlaybackPaused(12.0)]
  {
    var audio := new AudioElement(100.0);
    var window := new BrowserWindow();
    var hook := new Hook.Mounted(audio, window, Dataset(Some("a"), 1.0, 12.0, false), Loaded(100.0));
    audio.Play();
    hook.dataset := Dataset(Some("b"), 1.5, 30.0, false);
    hook.ReloadMedia(true, Failed);
    idAfterReload := hook.mediaId;
    hook.PauseEvent([Loaded(80.0)]);
    idAfterPause := hook.mediaId;
    hook.ReloadMedia(false, Failed);
    playing := !audio.paused;
    pushed := hook.pushed;
  }
}
