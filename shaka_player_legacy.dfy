/** The earlier playback hook of assets/js/hooks/shaka_player.js: plain JavaScript
    numbers, the start position read from the `#t=` fragment of the media path, a
    readyState gate on play/pause, and a reload that captures the new media when it is
    requested.

    How far `mounted` got decides what works afterwards: without a `#` in the path it
    throws before doing anything; when the first load fails it has registered the
    element's listeners but never set `this.audio` or the server handlers, so every
    handler that touches `this.audio` throws. */
module ShakaPlayerLegacy {
  import opened Wrappers
  import opened Js
  import opened Browser
  import opened LiveView
  import ShakaPlayer

  /** The initial time of a media path: the second `#`-piece split on `=`, and the
      second of those pieces through `parseFloat`. None when the path has no `#` (the
      second split then runs on `undefined` and throws); NaN when the fragment has no `=`. */
  function ParseTimeParam(path: string): (r: Option<Number>)
    ensures r.None? <==> '#' !in path
  {
    var pieces := Split(path, "#");
    if |pieces| < 2 then
      SplitSingleIffAbsent(path, "#");
      None
    else
      SplitSingleIffAbsent(path, "#");
      var kv := Split(pieces[1], "=");
      Some(if |kv| < 2 then NaN else ParseFloat(kv[1]))
  }

  /** A one-character separator splits a string into more than one piece exactly when
      the string contains it. */
  lemma {:induction false} SplitSingleIffAbsent(s: string, sep: string)
    requires |sep| == 1
    ensures |Split(s, sep)| == 1 <==> sep[0] !in s
    decreases |s|
  {
    if sep[0] !in s {
      SplitWithout(s, sep);
    } else if s[..1] == sep {
      assert |Split(s, sep)| == 1 + |Split(s[1..], sep)|;
    } else {
      assert s[0] != sep[0];
      SplitSingleIffAbsent(s[1..], sep);
      assert sep[0] in s[1..] by {
        var i :| 0 <= i < |s| && s[i] == sep[0];
        assert i > 0 && s[1..][i - 1] == sep[0];
      }
    }
  }

  /** A path `url#t=x` with a `#`-free url and an `x` free of `#` and `=` starts at
      `parseFloat(x)`. */
  lemma TimeParamOf(url: string, x: string)
    requires '#' !in url && '#' !in x && '=' !in x
    ensures ParseTimeParam(url + "#t=" + x) == Some(ParseFloat(x))
  {
    var frag := "t" + "=" + x;
    assert url + "#t=" + x == url + "#" + frag;
    assert '#' !in frag by {
      assert forall i :: 1 < i < |frag| ==> frag[i] == x[i - 2];
    }
    SplitAfterFirst(url, "#", frag);
    SplitWithout(frag, "#");
    assert Split(url + "#" + frag, "#") == [url, frag];
    SplitAfterFirst("t", "=", x);
    SplitWithout(x, "=");
    assert Split(frag, "=") == ["t", x];
  }

  /** In particular `url#t=N` starts at N for every whole number of seconds N. */
  lemma TimeParamOfWholeSeconds(url: string, n: nat)
    requires '#' !in url
    ensures ParseTimeParam(url + "#t=" + NatToString(n)) == Some(Num(n as real))
  {
    var x := NatToString(n);
    assert '#' !in x && '=' !in x by {
      assert forall i :: 0 <= i < |x| ==> IsDigit(x[i]);
    }
    TimeParamOf(url, x);
    ParseFloatOfNatToString(n);
  }

  /** The element's `data-*` attributes: media id, path and rate (the rate attribute is
      taken as the number it denotes). */
  datatype Dataset = Dataset(mediaId: Option<string>, mediaPath: string, playbackRate: real)

  /** A load requested by reloadMedia, with the dataset values and the `play` option
      captured when it was requested. */
  datatype Request = Request(mediaId: Option<string>, mediaPath: string, playbackRate: real, play: bool)

  datatype LoadOutcome = Loaded(duration: real) | Failed

  /** How far `mounted` got. */
  datatype Stage = Aborted | ListenersOnly | Ready

  /** What a load changes: the cached id, rate and time, and the audio element's
      position, duration, paused flag and rate. */
  datatype Snap = Snap(mediaId: Option<string>, rate: Option<real>, time: Number,
                       currentTime: real, duration: real, paused: bool, audioRate: real)

  /** `loadNewMedia`: a path without `#` throws before anything is set. Otherwise the
      id, rate and time are cached; a successful load leaves the element paused at the parsed
      time (when it is a number), applies the rate and plays when asked to. */
  function AfterLoad(s: Snap, req: Request, outcome: LoadOutcome): Snap {
    var t := ParseTimeParam(req.mediaPath);
    if t.None? then s
    else
      var cached := s.(mediaId := req.mediaId, rate := Some(req.playbackRate), time := t.value);
      match outcome
      case Failed => cached
      case Loaded(d) =>
        cached.(currentTime := if t.value.Num? then t.value.v else s.currentTime,
                duration := d, audioRate := req.playbackRate,
                paused := !req.play)
  }

  function AfterLoads(s: Snap, reqs: seq<Request>, outcomes: seq<LoadOutcome>): Snap
    requires |reqs| == |outcomes|
    decreases |reqs|
  {
    if reqs == [] then s
    else
      var n := |reqs| - 1;
      AfterLoad(AfterLoads(s, reqs[..n], outcomes[..n]), reqs[n], outcomes[n])
  }

  /** Deferred loads run in order, so the last one that gets past the path parse decides
      the cached id; when none does, the id is the one before. */
  lemma {:induction false} AfterLoadsLastWins(s: Snap, reqs: seq<Request>, outcomes: seq<LoadOutcome>)
    requires |reqs| == |outcomes|
    ensures var r := AfterLoads(s, reqs, outcomes);
      (forall i :: 0 <= i < |reqs| ==> '#' !in reqs[i].mediaPath) ==> r.mediaId == s.mediaId
    ensures var r := AfterLoads(s, reqs, outcomes);
      forall i :: 0 <= i < |reqs| && '#' in reqs[i].mediaPath &&
                  (forall j :: i < j < |reqs| ==> '#' !in reqs[j].mediaPath) ==>
        r.mediaId == reqs[i].mediaId
    decreases |reqs|
  {
    if reqs != [] {
      var n := |reqs| - 1;
      var front := reqs[..n];
      var prev := AfterLoads(s, front, outcomes[..n]);
      var r := AfterLoads(s, reqs, outcomes);
      AfterLoadsLastWins(s, front, outcomes[..n]);
      AfterLoadMediaId(prev, reqs[n], outcomes[n]);
      assert r.mediaId == if '#' in reqs[n].mediaPath then reqs[n].mediaId else prev.mediaId;
      if forall i :: 0 <= i < |reqs| ==> '#' !in reqs[i].mediaPath {
        assert forall i :: 0 <= i < n ==> '#' !in front[i].mediaPath;
      }
      forall i | 0 <= i < |reqs| && '#' in reqs[i].mediaPath &&
                 (forall j :: i < j < |reqs| ==> '#' !in reqs[j].mediaPath)
        ensures r.mediaId == reqs[i].mediaId
      {
        if i < n {
          assert '#' !in reqs[n].mediaPath;
          assert front[i] == reqs[i];
          assert forall j :: i < j < n ==> '#' !in front[j].mediaPath;
        }
      }
    }
  }

  /** One load replaces the cached id exactly when its path has a `#`. */
  lemma AfterLoadMediaId(s: Snap, req: Request, outcome: LoadOutcome)
    ensures AfterLoad(s, req, outcome).mediaId == if '#' in req.mediaPath then req.mediaId else s.mediaId
  {
  }

  class Hook {
    const audio: AudioElement
    var dataset: Dataset
    var stage: Stage
    var mediaId: Option<string>
    var playbackRate: Option<real>
    var time: Number
    var pushed: seq<Push>
    /** The once-only `pause` listeners added by reloadMedia. */
    var pendingLoads: seq<Request>

    ghost function Snapshot(): Snap
      reads this, audio
    {
      Snap(mediaId, playbackRate, time, audio.currentTime, audio.duration, audio.paused,
           audio.playbackRate)
    }

    /** `mounted`: the same steps as a load without autoplay, from nothing cached. */
    constructor Mounted(audio: AudioElement, dataset: Dataset, outcome: LoadOutcome)
      modifies audio
      ensures this.audio == audio && this.dataset == dataset && pushed == [] && pendingLoads == []
      ensures stage == if '#' !in dataset.mediaPath then Aborted
                       else if outcome.Failed? then ListenersOnly else Ready
      ensures Snapshot() ==
        AfterLoad(Snap(None, None, NaN, old(audio.currentTime), old(audio.duration),
                       old(audio.paused), old(audio.playbackRate)),
                  Request(dataset.mediaId, dataset.mediaPath, dataset.playbackRate, false), outcome)
    {
      this.audio := audio;
      this.dataset := dataset;
      mediaId := None;
      playbackRate := None;
      time := NaN;
      pushed := [];
      pendingLoads := [];
      stage := Aborted;
      new;
      var t := ParseTimeParam(dataset.mediaPath);
      if t.None? {
        return;
      }
      stage := if outcome.Failed? then ListenersOnly else Ready;
      LoadNewMedia(Request(dataset.mediaId, dataset.mediaPath, dataset.playbackRate, false), outcome);
    }

    /** `playPause`: toggles only when the element has enough data (readyState 4). */
    method PlayPause()
      modifies audio
      ensures stage == Ready && audio.readyState == 4 ==> audio.paused == !old(audio.paused)
      ensures !(stage == Ready && audio.readyState == 4) ==> audio.paused == old(audio.paused)
      ensures audio.currentTime == old(audio.currentTime) && audio.playbackRate == old(audio.playbackRate)
      ensures audio.readyState == old(audio.readyState)
    {
      if stage == Ready && audio.readyState == 4 {
        if audio.paused {
          audio.Play();
        } else {
          audio.Pause();
        }
      }
    }

    /** `seekRelative`: scaled by the element's own rate and clamped to [0, duration];
        nothing is pushed. */
    method SeekRelative(seconds: real)
      modifies audio`currentTime
      ensures stage == Ready ==>
        audio.currentTime == ShakaPlayer.ClampTime(old(audio.currentTime) + seconds * audio.playbackRate, audio.duration)
      ensures stage != Ready ==> audio.currentTime == old(audio.currentTime)
    {
      if stage == Ready {
        audio.currentTime :=
          ShakaPlayer.ClampTime(audio.currentTime + seconds * audio.playbackRate, audio.duration);
      }
    }

    method SeekRatio(ratio: real)
      modifies audio`currentTime
      ensures audio.currentTime == if stage == Ready then audio.duration * ratio else old(audio.currentTime)
    {
      if stage == Ready {
        audio.currentTime := audio.duration * ratio;
      }
    }

    method SetPlaybackRate(rate: real)
      modifies audio`playbackRate
      ensures audio.playbackRate == if stage == Ready then rate else old(audio.playbackRate)
    {
      if stage == Ready {
        audio.playbackRate := rate;
      }
    }

    method LoadAndPlayMedia(id: string)
      modifies this`pushed
      ensures pushed == old(pushed) + [Push.LoadAndPlayMedia(id)]
    {
      pushed := pushed + [Push.LoadAndPlayMedia(id)];
    }

    /** `playbackStarted` needs no element, so it reports once the listeners exist. */
    method PlaybackStarted()
      modifies this`pushed
      ensures pushed == if stage == Aborted then old(pushed) else old(pushed) + [Push.PlaybackStarted]
    {
      if stage != Aborted {
        pushed := pushed + [Push.PlaybackStarted];
      }
    }

    /** `playbackPaused`: reports the position and caches it as the last time. */
    method PlaybackPaused()
      modifies this`pushed, this`time
      ensures stage == Ready ==>
        pushed == old(pushed) + [Push.PlaybackPaused(audio.currentTime)] && time == Num(audio.currentTime)
      ensures stage != Ready ==> pushed == old(pushed) && time == old(time)
    {
      if stage == Ready {
        var t := audio.currentTime;
        pushed := pushed + [Push.PlaybackPaused(t)];
        time := Num(t);
      }
    }

    /** `playbackRateChanged`: reports and caches a non-zero rate that differs from the
        cached one. */
    method PlaybackRateChanged()
      modifies this`pushed, this`playbackRate
      ensures var rate := audio.playbackRate;
        if stage == Ready && rate != 0.0 && old(playbackRate) != Some(rate) then
          pushed == old(pushed) + [Push.PlaybackRateChanged(rate)] && playbackRate == Some(rate)
        else
          pushed == old(pushed) && playbackRate == old(playbackRate)
    {
      if stage == Ready {
        var rate := audio.playbackRate;
        if rate != 0.0 && playbackRate != Some(rate) {
          pushed := pushed + [Push.PlaybackRateChanged(rate)];
          playbackRate := Some(rate);
        }
      }
    }

    /** `playbackTimeUpdated`: reports and caches a non-zero time that differs from the
        cached one (a NaN cache differs from every time). */
    method PlaybackTimeUpdated()
      modifies this`pushed, this`time
      ensures var t := Num(audio.currentTime);
        if stage == Ready && Truthy(t) && Differs(t, old(time)) then
          pushed == old(pushed) + [Push.PlaybackTimeUpdated(t.v, false)] && time == t
        else
          pushed == old(pushed) && time == old(time)
    {
      if stage == Ready {
        var t := Num(audio.currentTime);
        if Truthy(t) && Differs(t, time) {
          pushed := pushed + [Push.PlaybackTimeUpdated(t.v, false)];
          time := t;
        }
      }
    }

    /** The server's `reload-media` event. The same id only plays (when asked to);
        otherwise the load is captured now and, while playing, deferred to the next
        `pause` event after pausing the element. */
    method ReloadMedia(play: bool, outcome: LoadOutcome)
      modifies this`mediaId, this`playbackRate, this`time, this`pendingLoads, audio
      ensures pushed == old(pushed)
      ensures var req := Request(dataset.mediaId, dataset.mediaPath, dataset.playbackRate, play);
        if stage != Ready then
          Snapshot() == old(Snapshot()) && pendingLoads == old(pendingLoads)
        else if dataset.mediaId == old(mediaId) then
          Snapshot() == old(Snapshot()).(paused := if play then false else old(audio.paused))
          && pendingLoads == old(pendingLoads)
        else if !old(audio.paused) then
          Snapshot() == old(Snapshot()).(paused := true) && pendingLoads == old(pendingLoads) + [req]
        else
          Snapshot() == AfterLoad(old(Snapshot()), req, outcome) && pendingLoads == old(pendingLoads)
    {
      if stage != Ready {
        return;
      }
      if dataset.mediaId == mediaId {
        if play {
          audio.Play();
        }
        return;
      }

      var req := Request(dataset.mediaId, dataset.mediaPath, dataset.playbackRate, play);
      if !audio.paused {
        pendingLoads := pendingLoads + [req];
        audio.Pause();
      } else {
        LoadNewMedia(req, outcome);
      }
    }

    /** The element's `pause` event: playbackPaused, then each deferred load in order. */
    method PauseEvent(outcomes: seq<LoadOutcome>)
      requires |outcomes| == |pendingLoads|
      modifies this, audio
      ensures pendingLoads == [] && stage == old(stage) && dataset == old(dataset)
      ensures stage == Ready ==> pushed == old(pushed) + [Push.PlaybackPaused(old(audio.currentTime))]
      ensures stage != Ready ==> pushed == old(pushed)
      ensures Snapshot() == AfterLoads(
        old(Snapshot()).(time := if stage == Ready then Num(old(audio.currentTime)) else old(time)),
        old(pendingLoads), outcomes)
    {
      PlaybackPaused();

      var listeners := pendingLoads;
      pendingLoads := [];
      ghost var start := Snapshot();
      for k := 0 to |listeners|
        invariant pendingLoads == [] && stage == old(stage) && dataset == old(dataset)
        invariant pushed == if stage == Ready then old(pushed) + [Push.PlaybackPaused(old(audio.currentTime))] else old(pushed)
        invariant Snapshot() == AfterLoads(start, listeners[..k], outcomes[..k])
      {
        LoadNewMedia(listeners[k], outcomes[k]);
        assert listeners[..k + 1][..k] == listeners[..k];
        assert outcomes[..k + 1][..k] == outcomes[..k];
      }
      assert listeners[..|listeners|] == listeners;
      assert outcomes[..|outcomes|] == outcomes;
    }

    /** The `loadNewMedia` closure (and the load in `mounted`), settled as `outcome`. */
    method LoadNewMedia(req: Request, outcome: LoadOutcome)
      modifies this`mediaId, this`playbackRate, this`time, audio
      ensures Snapshot() == AfterLoad(old(Snapshot()), req, outcome)
      ensures audio.readyState == old(audio.readyState)
    {
      var t := ParseTimeParam(req.mediaPath);
      if t.None? {
        return;
      }
      mediaId := req.mediaId;
      playbackRate := Some(req.playbackRate);
      time := t.value;

      match outcome {
        case Failed =>
        case Loaded(d) =>
          audio.NewSource(d);
          if t.value.Num? {
            audio.currentTime := t.value.v;
          }
          audio.playbackRate := req.playbackRate;
          if req.play {
            audio.Play();
          }
      }
    }
  }

  /** The start time of the worked example's media path. */
  lemma FragmentOfExample()
    ensures ParseTimeParam("/m/7.mpd#t=42") == Some(Num(42.0))
  {
    assert NatToString(42) == "42";
    assert "/m/7.mpd#t=42" == "/m/7.mpd" + "#t=" + NatToString(42);
    TimeParamOfWholeSeconds("/m/7.mpd", 42);
  }

  /** Mounting on `/m/7.mpd#t=42` at rate 1.5 starts at 42 s with 42 cached as the last
      time; the first time update at the same position then reports nothing. */
  method MountAtFragment() returns (time: Number, position: real, rate: real, pushed: seq<Push>)
    ensures time == Num(42.0) && position == 42.0 && rate == 1.5 && pushed == []
  {
    FragmentOfExample();
    var audio := new AudioElement(0.0);
    var hook := new Hook.Mounted(audio, Dataset(Some("7"), "/m/7.mpd#t=42", 1.5), Loaded(600.0));
    hook.PlaybackTimeUpdated();
    time, position, rate, pushed := hook.time, audio.currentTime, audio.playbackRate, hook.pushed;
  }
}
