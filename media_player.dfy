/** The dash.js player hook of assets/js/hooks/media_player.js.

    The hook drives a dash.js player: it plays and pauses it (recording the playing
    media in `window.mediaPlaying`), seeks it, and reacts to the player's CAN_PLAY
    event by applying the rate from the element's dataset, registering its playback
    handlers the first time, and reporting the duration. Every `reloadMedia`
    registers one more CAN_PLAY handler, so they pile up: the next CAN_PLAY event
    runs all of them. */
module MediaPlayer {
  import opened Wrappers
  import opened Js
  import opened LiveView

  /** The element's dataset as the hook reads it at the moment of the call. */
  datatype Dataset = Dataset(mediaId: string, mediaPath: string, mediaPlaybackRate: string)

  /** The player events the hook subscribes to in `canPlay`. */
  datatype PlayerEvent = PlaybackPlaying | PlaybackPausedEvent | PlaybackTimeUpdatedEvent

  /** The three subscriptions `canPlay` makes, in order. */
  const PlaybackHandlers: seq<PlayerEvent> := [PlaybackPlaying, PlaybackPausedEvent, PlaybackTimeUpdatedEvent]

  /** The dash.js player, reduced to what the hook reads and what it asks of it.
      Seeks are recorded rather than performed: where the player puts the playhead
      for a given target is dash.js's business. */
  class DashPlayer {
    var source: string
    var duration: real
    var time: real
    var rate: Number
    var paused: bool
    /** The CAN_PLAY handlers, by whether they were registered with `opts.play`. */
    var canPlayHandlers: seq<bool>
    /** The other subscriptions, in registration order. */
    var handlers: seq<PlayerEvent>
    /** The targets passed to `seek`, oldest first. */
    var seeks: seq<Number>

    /** `MediaPlayer().create()` followed by `initialize(audio, source, false)`:
        loaded, not playing, nothing subscribed. */
    constructor Initialize(source: string, duration: real)
      ensures this.source == source && this.duration == duration && time == 0.0
      ensures rate == Num(1.0) && paused
      ensures canPlayHandlers == [] && handlers == [] && seeks == []
    {
      this.source := source;
      this.duration := duration;
      time := 0.0;
      rate := Num(1.0);
      paused := true;
      canPlayHandlers := [];
      handlers := [];
      seeks := [];
    }
  }

  /** JavaScript `+` and `*` on a position: NaN absorbs. */
  function SeekTarget(time: real, seconds: real, rate: Number): (r: Number)
    ensures r.Num? <==> rate.Num?
    ensures r.Num? ==> r.v - time == seconds * rate.v
  {
    if rate.Num? then Num(time + seconds * rate.v) else NaN
  }

  /** The same ratio of the duration. */
  function RatioTarget(duration: real, ratio: real): (r: Number)
    ensures r.Num? && (0.0 <= ratio <= 1.0 && duration >= 0.0 ==> 0.0 <= r.v <= duration)
  {
    Num(duration * ratio)
  }

  /** `n` copies of one pushed event. */
  function Repeat(p: Push, n: nat): (r: seq<Push>)
    ensures |r| == n && forall i :: 0 <= i < n ==> r[i] == p
  {
    if n == 0 then [] else Repeat(p, n - 1) + [p]
  }

  class Hook {
    const player: DashPlayer
    var mediaId: string
    var handlersAttached: bool
    /** `window.mediaPlaying`: the media the page believes is playing. */
    var mediaPlaying: Option<string>
    var pushed: seq<Push>

    /** The playback handlers are subscribed exactly once, and only after the flag. */
    ghost predicate Valid()
      reads this, player
    {
      player.handlers == if handlersAttached then PlaybackHandlers else []
    }

    /** `mounted`: the player is created on the dataset's path, not playing, with
        one CAN_PLAY handler that does not play. */
    constructor Mounted(dataset: Dataset, duration: real)
      ensures Valid() && fresh(player)
      ensures mediaId == dataset.mediaId && !handlersAttached && mediaPlaying.None? && pushed == []
      ensures player.source == dataset.mediaPath && player.duration == duration && player.paused
      ensures player.canPlayHandlers == [false] && player.seeks == []
    {
      player := new DashPlayer.Initialize(dataset.mediaPath, duration);
      mediaId := dataset.mediaId;
      handlersAttached := false;
      mediaPlaying := None;
      pushed := [];
      new;
      player.canPlayHandlers := [false];
    }

    /** `play`: the page records this media as playing, then the player plays. */
    method Play()
      requires Valid()
      modifies this`mediaPlaying, player`paused
      ensures Valid() && mediaPlaying == Some(mediaId) && !player.paused
    {
      mediaPlaying := Some(mediaId);
      player.paused := false;
    }

    /** `pause`: the page records that nothing plays, then the player pauses. */
    method Pause()
      requires Valid()
      modifies this`mediaPlaying, player`paused
      ensures Valid() && mediaPlaying.None? && player.paused
    {
      mediaPlaying := None;
      player.paused := true;
    }

    /** `seekRelative`: seconds of media time scaled by the rate, with no clamping. */
    method SeekRelative(seconds: real)
      requires Valid()
      modifies player`seeks
      ensures Valid()
      ensures player.seeks == old(player.seeks) + [SeekTarget(player.time, seconds, player.rate)]
    {
      player.seeks := player.seeks + [SeekTarget(player.time, seconds, player.rate)];
    }

    /** `seekRatio`: the same ratio of the duration. */
    method SeekRatio(ratio: real)
      requires Valid()
      modifies player`seeks
      ensures Valid()
      ensures player.seeks == old(player.seeks) + [RatioTarget(player.duration, ratio)]
    {
      player.seeks := player.seeks + [RatioTarget(player.duration, ratio)];
    }

    /** `canPlay(opts)`: the dataset's rate is applied; the playback handlers are
        subscribed unless they already are; the duration is reported; the player
        plays when `opts.play` is set. A rate attribute that does not parse makes
        `setPlaybackRate` throw, so the call stops there and changes nothing. */
    method CanPlay(play: bool, dataset: Dataset)
      requires Valid()
      modifies this`handlersAttached, this`pushed, this`mediaPlaying, player`rate, player`handlers, player`paused
      ensures Valid()
      ensures ParseFloat(dataset.mediaPlaybackRate).NaN? ==>
        && handlersAttached == old(handlersAttached) && pushed == old(pushed)
        && mediaPlaying == old(mediaPlaying) && player.rate == old(player.rate)
        && player.paused == old(player.paused)
      ensures ParseFloat(dataset.mediaPlaybackRate).Num? ==>
        && handlersAttached && player.handlers == PlaybackHandlers
        && player.rate == ParseFloat(dataset.mediaPlaybackRate)
        && pushed == old(pushed) + [DurationLoaded(player.duration)]
        && player.paused == (old(player.paused) && !play)
        && mediaPlaying == if play then Some(mediaId) else old(mediaPlaying)
    {
      var rate := ParseFloat(dataset.mediaPlaybackRate);
      if rate.NaN? {
        return;
      }
      player.rate := rate;
      if !handlersAttached {
        player.handlers := player.handlers + PlaybackHandlers;
        handlersAttached := true;
      }
      pushed := pushed + [DurationLoaded(player.duration)];
      if play {
        Play();
      }
    }

    /** The handlers a CAN_PLAY event gets through: all of them, in registration
        order, unless the rate attribute does not parse, in which case the first
        one throws and none of them gets past `setPlaybackRate`. */
    function HandlersRun(dataset: Dataset): (r: seq<bool>)
      reads player
      ensures ParseFloat(dataset.mediaPlaybackRate).Num? ==> r == player.canPlayHandlers
      ensures ParseFloat(dataset.mediaPlaybackRate).NaN? ==> r == []
    {
      if ParseFloat(dataset.mediaPlaybackRate).NaN? then [] else player.canPlayHandlers
    }

    /** The player's CAN_PLAY event: every registered handler runs `canPlay`, in
        registration order; the handlers stay registered. The dataset is the same for
        every handler, so with an unparsable rate the first one throws and the event
        changes nothing. */
    method CanPlayEvent(dataset: Dataset)
      requires Valid()
      modifies this`handlersAttached, this`pushed, this`mediaPlaying, player`rate, player`handlers, player`paused
      ensures Valid()
      ensures var run := HandlersRun(dataset);
        && pushed == old(pushed) + Repeat(DurationLoaded(player.duration), |run|)
        && (run != [] ==> handlersAttached && player.rate == ParseFloat(dataset.mediaPlaybackRate))
        && (run == [] ==> handlersAttached == old(handlersAttached) && player.rate == old(player.rate))
        && player.paused == (old(player.paused) && true !in run)
        && mediaPlaying == if true in run then Some(mediaId) else old(mediaPlaying)
    {
      var handlers := HandlersRun(dataset);
      for k := 0 to |handlers|
        invariant Valid()
        invariant pushed == old(pushed) + Repeat(DurationLoaded(player.duration), k)
        invariant k > 0 ==> handlersAttached && player.rate == ParseFloat(dataset.mediaPlaybackRate)
        invariant k == 0 ==> handlersAttached == old(handlersAttached) && player.rate == old(player.rate)
        invariant player.paused == (old(player.paused) && true !in handlers[..k])
        invariant mediaPlaying == if true in handlers[..k] then Some(mediaId) else old(mediaPlaying)
      {
        CanPlay(handlers[k], dataset);
        assert handlers[..k + 1] == handlers[..k] + [handlers[k]];
      }
      assert handlers[..|handlers|] == handlers;
    }

    /** `playbackStarted`, subscribed to PLAYBACK_PLAYING. */
    method PlaybackStarted()
      modifies this`pushed
      ensures pushed == old(pushed) + [Push.PlaybackStarted]
    {
      pushed := pushed + [Push.PlaybackStarted];
    }

    /** `playbackPaused`, subscribed to PLAYBACK_PAUSED: reports the position. */
    method PlaybackPaused()
      modifies this`pushed
      ensures pushed == old(pushed) + [Push.PlaybackPaused(player.time)]
    {
      pushed := pushed + [Push.PlaybackPaused(player.time)];
    }

    /** `playbackTimeUpdated`, subscribed to PLAYBACK_TIME_UPDATED: reports the
        position, without `persist`. */
    method PlaybackTimeUpdated()
      modifies this`pushed
      ensures pushed == old(pushed) + [Push.PlaybackTimeUpdated(player.time, false)]
    {
      pushed := pushed + [Push.PlaybackTimeUpdated(player.time, false)];
    }

    /** `reloadMedia(opts)`: the player is pointed at the dataset's path, one more
        CAN_PLAY handler carrying `opts.play` is registered, and the hook takes the
        dataset's id. Nothing is played, paused or pushed yet. */
    method ReloadMedia(play: bool, dataset: Dataset, duration: real)
      requires Valid()
      modifies this`mediaId, player`source, player`duration, player`canPlayHandlers
      ensures Valid() && mediaId == dataset.mediaId
      ensures player.source == dataset.mediaPath && player.duration == duration
      ensures player.canPlayHandlers == old(player.canPlayHandlers) + [play]
    {
      player.source := dataset.mediaPath;
      player.duration := duration;
      player.canPlayHandlers := player.canPlayHandlers + [play];
      mediaId := dataset.mediaId;
    }

    /** `loadAndPlayMedia`: asks the server to load and play another media. */
    method LoadAndPlayMedia(id: string)
      modifies this`pushed
      ensures pushed == old(pushed) + [Push.LoadAndPlayMedia(id)]
    {
      pushed := pushed + [Push.LoadAndPlayMedia(id)];
    }
  }

  /** Mount, first CAN_PLAY, then a reload that asks to play: the second CAN_PLAY runs
      the mount's handler again as well as the reload's, so the duration is reported
      twice more, the new media plays, and the playback handlers are still
      subscribed once. */
  method ReloadRunsEveryHandler() returns (pushed: seq<Push>, playing: Option<string>, handlers: seq<PlayerEvent>)
    ensures pushed == [DurationLoaded(300.0), DurationLoaded(120.0), DurationLoaded(120.0)]
    ensures playing == Some("b") && handlers == PlaybackHandlers
  {
    var first := Dataset("a", "/a.mpd", "1.5");
    var hook := new Hook.Mounted(first, 300.0);
    hook.CanPlayEvent(first);
    var second := Dataset("b", "/b.mpd", "1.5");
    hook.ReloadMedia(true, second, 120.0);
    hook.CanPlayEvent(second);
    pushed, playing, handlers := hook.pushed, hook.mediaPlaying, hook.player.handlers;
  }

  /** A rate attribute that does not parse: the CAN_PLAY after mount throws in its
      only handler, so no duration is reported and the playback handlers are never
      subscribed. */
  method UnparsableRateStopsCanPlay() returns (pushed: seq<Push>, handlers: seq<PlayerEvent>)
    ensures pushed == [] && handlers == []
  {
    var dataset := Dataset("a", "/a.mpd", "fast");
    var hook := new Hook.Mounted(dataset, 300.0);
    hook.CanPlayEvent(dataset);
    pushed, handlers := hook.pushed, hook.player.handlers;
  }
}
