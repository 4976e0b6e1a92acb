/** The playback hook of new/assets/js/hooks/shakaPlayer.js: the same load and reload
    protocol as ShakaPlayer, with plain numbers, a relative seek that starts from the
    hook's cached `time` rather than from the element, and one shared slot for the
    handles of both interval timers. */
module ShakaPlayerNew {
  import opened Wrappers
  import opened Js
  import opened Browser
  import opened LiveView
  import ShakaPlayer

  const PersistPeriod: real := 60000.0

  /** The update timer's delay, `1000 / playbackRate`. An unset rate gives NaN and a
      non-positive one a delay the browser treats as none; both are modelled as 0. */
  function UpdatePeriod(rate: Option<real>): (p: real)
    ensures p >= 0.0
    ensures rate.Some? && rate.value > 0.0 ==> p * rate.value == 1000.0
  {
    if rate.Some? && rate.value > 0.0 then 1000.0 / rate.value else 0.0
  }

  /** `seekRelative`'s target: `time + seconds * playbackRate` clamped to [0, duration].
      An unset time or rate makes it NaN, and NaN passes both clamps unchanged. */
  function SeekTarget(time: Number, seconds: real, rate: Option<real>, duration: real): (r: Number)
    ensures r.Num? <==> time.Num? && rate.Some?
    ensures r.Num? && duration >= 0.0 ==> 0.0 <= r.v <= duration
  {
    if time.Num? && rate.Some? then Num(ShakaPlayer.ClampTime(time.v + seconds * rate.value, duration))
    else NaN
  }

  /** Because each seek starts from the cached time, two relative seeks whose first
      target stays inside the media add up to one seek by the sum of their offsets. */
  lemma SeeksAdd(time: real, a: real, b: real, rate: real, duration: real)
    requires 0.0 <= time + a * rate <= duration
    ensures SeekTarget(SeekTarget(Num(time), a, Some(rate), duration), b, Some(rate), duration)
         == SeekTarget(Num(time), a + b, Some(rate), duration)
  {
    assert (time + a * rate) + b * rate == time + (a + b) * rate;
  }

  class Hook {
    const audio: AudioElement
    const window: BrowserWindow
    var dataset: ShakaPlayer.Dataset
    var mediaId: Option<string>
    /** The cached rate; unset until the first load. */
    var playbackRate: Option<real>
    /** The cached position, set only by seeks; NaN while unset. */
    var time: Number
    var loaded: bool
    /** `this.interval`, which both timers' handles are written to. */
    var interval: Option<nat>
    var pushed: seq<Push>
    var pendingLoads: seq<bool>

    ghost predicate Valid()
      reads this, window
    {
      window.Valid()
    }

    ghost function Snapshot(): ShakaPlayer.Snap
      reads this, audio
    {
      ShakaPlayer.Snap(mediaId, playbackRate, loaded, audio.currentTime, audio.duration,
                       audio.paused, audio.playbackRate)
    }

    /** `mounted`: listeners, then a load of the dataset's media without autoplay. */
    constructor Mounted(audio: AudioElement, window: BrowserWindow, dataset: ShakaPlayer.Dataset,
                        outcome: ShakaPlayer.LoadOutcome)
      requires window.Valid()
      modifies audio
      ensures Valid() && this.audio == audio && this.window == window && this.dataset == dataset
      ensures time == NaN && interval.None? && pushed == [] && pendingLoads == []
      ensures Snapshot() ==
        ShakaPlayer.AfterLoad(ShakaPlayer.Snap(None, None, false, old(audio.currentTime),
                                               old(audio.duration), old(audio.paused),
                                               old(audio.playbackRate)),
                              dataset, false, outcome)
    {
      this.audio := audio;
      this.window := window;
      this.dataset := dataset;
      mediaId := None;
      playbackRate := None;
      time := NaN;
      loaded := false;
      interval := None;
      pushed := [];
      pendingLoads := [];
      new;
      LoadMediaFromDataset(dataset, false, outcome);
    }

    method PlayPause()
      modifies audio
      ensures audio.paused == !old(audio.paused)
      ensures audio.currentTime == old(audio.currentTime) && audio.playbackRate == old(audio.playbackRate)
    {
      if audio.paused {
        audio.Play();
      } else {
        audio.Pause();
      }
    }

    method Seek(t: real)
      modifies audio`currentTime
      ensures audio.currentTime == t
    {
      audio.currentTime := t;
    }

    /** `seekRelative`: the target is cached as the new time; a NaN target cannot be
        written to the element, which throws, so only a numeric one is applied and pushed. */
    method SeekRelative(seconds: real)
      modifies this`time, this`pushed, audio`currentTime
      ensures time == SeekTarget(old(time), seconds, playbackRate, audio.duration)
      ensures time.Num? ==>
        audio.currentTime == time.v && pushed == old(pushed) + [PlaybackTimeUpdated(time.v, false)]
      ensures time.NaN? ==> audio.currentTime == old(audio.currentTime) && pushed == old(pushed)
    {
      var newTime := SeekTarget(time, seconds, playbackRate, audio.duration);
      time := newTime;
      if newTime.NaN? {
        return;
      }
      audio.currentTime := newTime.v;
      pushed := pushed + [PlaybackTimeUpdated(newTime.v, false)];
    }

    method SeekRatio(ratio: real)
      modifies audio`currentTime
      ensures audio.currentTime == audio.duration * ratio
    {
      audio.currentTime := audio.duration * ratio;
    }

    method LoadAndPlayMedia(id: string)
      modifies this`pushed
      ensures pushed == old(pushed) + [LoadMedia(id)]
    {
      pushed := pushed + [LoadMedia(id)];
    }

    /** `playbackStarted`: arms the persist timer and then the update timer, each handle
        overwriting the shared slot, so only the update timer's handle is kept. */
    method PlaybackStarted()
      requires Valid()
      modifies this`interval, this`pushed, window
      ensures Valid()
      ensures interval.Some? && interval.value !in old(window.intervals)
      ensures exists p: nat ::
        && p !in old(window.intervals) && p != interval.value
        && window.intervals == old(window.intervals)[p := Timer(PersistPeriod, true)]
                                 [interval.value := Timer(UpdatePeriod(playbackRate), false)]
      ensures window.unloadGuard
      ensures pushed == old(pushed) + [Push.PlaybackStarted]
    {
      var p := window.SetInterval(Timer(PersistPeriod, true));
      interval := Some(p);
      var u := window.SetInterval(Timer(UpdatePeriod(playbackRate), false));
      interval := Some(u);
      window.AddUnloadGuard();

      pushed := pushed + [Push.PlaybackStarted];
    }

    /** `playbackPaused`: both clears read the shared slot, so only the timer whose
        handle is there is disarmed. */
    method PlaybackPaused()
      requires Valid()
      modifies this`pushed, window
      ensures Valid()
      ensures window.intervals == old(window.intervals) - ShakaPlayer.Handles(interval)
      ensures !window.unloadGuard
      ensures pushed == old(pushed) + [Push.PlaybackPaused(audio.currentTime)]
    {
      window.ClearInterval(interval);
      window.ClearInterval(interval);
      window.RemoveUnloadGuard();

      pushed := pushed + [Push.PlaybackPaused(audio.currentTime)];
    }

    method IntervalFired(handle: nat)
      requires handle in window.intervals
      modifies this`pushed
      ensures pushed == old(pushed) + [PlaybackTimeUpdated(audio.currentTime, window.intervals[handle].persist)]
    {
      pushed := pushed + [PlaybackTimeUpdated(audio.currentTime, window.intervals[handle].persist)];
    }

    /** `playbackRateChanged`: a non-zero rate that differs from the cache (an unset
        cache differs from every rate) is pushed and cached. */
    method PlaybackRateChanged()
      modifies this`playbackRate, this`pushed
      ensures var rate := audio.playbackRate;
        if rate != 0.0 && old(playbackRate) != Some(rate) then
          playbackRate == Some(rate) && pushed == old(pushed) + [Push.PlaybackRateChanged(rate)]
        else
          playbackRate == old(playbackRate) && pushed == old(pushed)
    {
      var rate := audio.playbackRate;
      if rate != 0.0 && playbackRate != Some(rate) {
        pushed := pushed + [Push.PlaybackRateChanged(rate)];
        playbackRate := Some(rate);
      }
    }

    /** `seeked`: the landed position becomes the cached time and is pushed as durable. */
    method Seeked()
      modifies this`time, this`pushed
      ensures time == Num(audio.currentTime)
      ensures pushed == old(pushed) + [PlaybackTimeUpdated(audio.currentTime, true)]
    {
      time := Num(audio.currentTime);
      pushed := pushed + [PlaybackTimeUpdated(audio.currentTime, true)];
    }

    /** `reloadMedia`: as in ShakaPlayer.Hook.ReloadMedia. */
    method ReloadMedia(autoplay: bool, outcome: ShakaPlayer.LoadOutcome)
      modifies this`mediaId, this`playbackRate, this`loaded, this`pendingLoads, audio
      ensures pushed == old(pushed) && time == old(time)
      ensures old(dataset.mediaId) == old(mediaId) ==>
        Snapshot() == old(Snapshot()) && pendingLoads == old(pendingLoads)
      ensures old(dataset.mediaId) != old(mediaId) && !old(audio.paused) ==>
        && pendingLoads == old(pendingLoads) + [autoplay]
        && Snapshot() == old(Snapshot()).(paused := true)
      ensures old(dataset.mediaId) != old(mediaId) && old(audio.paused) ==>
        && pendingLoads == old(pendingLoads)
        && Snapshot() == ShakaPlayer.AfterLoad(old(Snapshot()), dataset, autoplay, outcome)
    {
      if dataset.mediaId == mediaId {
        return;
      }

      if !audio.paused {
        pendingLoads := pendingLoads + [autoplay];
        audio.Pause();
      } else {
        LoadMediaFromDataset(dataset, autoplay, outcome);
      }
    }

    /** The element's `pause` event: playbackPaused, then the deferred loads in order. */
    method PauseEvent(outcomes: seq<ShakaPlayer.LoadOutcome>)
      requires Valid() && |outcomes| == |pendingLoads|
      modifies this, audio, window
      ensures Valid() && dataset == old(dataset) && pendingLoads == [] && time == old(time)
      ensures interval == old(interval)
      ensures window.intervals == old(window.intervals) - ShakaPlayer.Handles(interval)
      ensures !window.unloadGuard
      ensures pushed == old(pushed) + [Push.PlaybackPaused(old(audio.currentTime))]
      ensures Snapshot() == ShakaPlayer.AfterLoads(old(Snapshot()), dataset, old(pendingLoads), outcomes)
    {
      PlaybackPaused();

      var listeners := pendingLoads;
      pendingLoads := [];
      ghost var start := Snapshot();
      for k := 0 to |listeners|
        invariant Valid() && dataset == old(dataset) && pendingLoads == [] && time == old(time)
        invariant interval == old(interval)
        invariant window.intervals == old(window.intervals) - ShakaPlayer.Handles(interval)
        invariant !window.unloadGuard
        invariant pushed == old(pushed) + [Push.PlaybackPaused(old(audio.currentTime))]
        invariant Snapshot() == ShakaPlayer.AfterLoads(start, dataset, listeners[..k], outcomes[..k])
      {
        LoadMediaFromDataset(dataset, listeners[k], outcomes[k]);
        assert listeners[..k + 1][..k] == listeners[..k];
        assert outcomes[..k + 1][..k] == outcomes[..k];
      }
      assert listeners[..|listeners|] == listeners;
      assert outcomes[..|outcomes|] == outcomes;
    }

    /** `loadMediaFromDataset`: the steps of ShakaPlayer.AfterLoad; the cached time is
        not touched. */
    method LoadMediaFromDataset(ds: ShakaPlayer.Dataset, autoplay: bool, outcome: ShakaPlayer.LoadOutcome)
      modifies this`mediaId, this`playbackRate, this`loaded, audio
      ensures Snapshot() == ShakaPlayer.AfterLoad(old(Snapshot()), ds, autoplay, outcome)
    {
      if ds.unloaded {
        loaded := false;
        return;
      }

      mediaId := ds.mediaId;
      playbackRate := Some(ds.playbackRate);
      loaded := true;

      match outcome {
        case Failed =>
        case Loaded(d) =>
          audio.NewSource(d);
          audio.currentTime := ds.position;
          audio.playbackRate := ds.playbackRate;
          if autoplay {
            audio.Play();
          }
      }
    }
  }

  /** Starting and pausing once leaves the persist timer armed: it keeps pushing durable
      position updates while paused, with no handle left to clear it by. */
  method StartPauseLeaksPersistTimer() returns (timers: map<nat, Timer>, guard: bool)
    ensures |timers| == 1 && !guard
    ensures forall h :: h in timers ==> timers[h] == Timer(PersistPeriod, true)
  {
    var audio := new AudioElement(100.0);
    var window := new BrowserWindow();
    var hook := new Hook.Mounted(audio, window, ShakaPlayer.Dataset(Some("m"), 2.0, 0.0, false),
                                 ShakaPlayer.Loaded(100.0));
    hook.PlaybackStarted();
    hook.PlaybackPaused();
    timers, guard := window.intervals, window.unloadGuard;
    var p :| p in timers;
    assert timers.Keys == {p};
  }

  /** Before any `seeked` event the cached time is unset, so a relative seek stores NaN,
      moves nothing and pushes nothing; after one, seeks start from the landed position. */
  method SeekBeforeAndAfterSeeked() returns (first: Number, second: Number, pushed: seq<Push>)
    ensures first == NaN && second == Num(25.0)
    ensures pushed == [PlaybackTimeUpdated(10.0, true), PlaybackTimeUpdated(25.0, false)]
  {
    var audio := new AudioElement(100.0);
    var window := new BrowserWindow();
    var hook := new Hook.Mounted(audio, window, ShakaPlayer.Dataset(Some("m"), 1.5, 10.0, false),
                                 ShakaPlayer.Loaded(100.0));
    hook.SeekRelative(10.0);
    first := hook.time;
    hook.Seeked();
    hook.SeekRelative(10.0);
    second := hook.time;
    pushed := hook.pushed;
  }
}
