/** The player state store (assets/js/alpine/player.js): the loaded media's id, rate and
    chapters, its duration and progress both in engine ("actual") time and in listening
    ("real") time, the completion percentage, the playing flag, and the current chapter
    window `{id, start, end}`.

    Fields that the store starts out without (`undefined`) are `Option`s. The
    percentage's two-decimal formatting is left abstract: it is the exact quotient. */
module PlayerStore {
  import opened Wrappers

  /** A chapter of the loaded media: its id and where it starts, in engine time. */
  datatype Chapter = Chapter(id: int, time: real)

  /** The current chapter window. `start` is None when the store copied it from a field
      that the source object does not have (see UpdatedWindow). */
  datatype ChapterWindow = ChapterWindow(id: int, start: Option<real>, end: real)

  datatype Duration = Duration(realTime: real, actual: real)

  /** `percent` is None when `real / duration.real` is not a finite number, that is
      when the real duration is zero. */
  datatype Progress = Progress(realTime: real, actual: real, percent: Option<real>)

  /** The completion percentage of a real position against a real duration. */
  function Percent(realTime: real, realDuration: real): Option<real> {
    if realDuration == 0.0 then None else Some(realTime / realDuration * 100.0)
  }

  /** Dividing position and duration by the same positive rate does not move the
      percentage, so a rate change leaves it where it was. */
  lemma PercentIgnoresRate(actualTime: real, actualDuration: real, rate: real)
    requires rate > 0.0
    ensures Percent(actualTime / rate, actualDuration / rate) == Percent(actualTime, actualDuration)
  {
    if actualDuration != 0.0 {
      assert actualDuration / rate != 0.0;
      calc {
        (actualTime / rate) / (actualDuration / rate);
        actualTime / actualDuration;
      }
    }
  }

  /** A position inside the media gives a percentage between 0 and 100. */
  lemma PercentBounds(realTime: real, realDuration: real)
    requires 0.0 <= realTime <= realDuration && realDuration > 0.0
    ensures Percent(realTime, realDuration).Some?
    ensures 0.0 <= Percent(realTime, realDuration).value <= 100.0
  {
    assert realTime / realDuration <= 1.0;
  }

  /** The index of the last chapter that starts at or before `t`: what the backward scan
      of `updateChapter` stops at. */
  function LastAtOrBefore(chapters: seq<Chapter>, t: real): (r: Option<nat>)
    ensures r.Some? ==> r.value < |chapters| && chapters[r.value].time <= t
    ensures r.Some? ==> forall j :: r.value < j < |chapters| ==> chapters[j].time > t
    ensures r.None? ==> forall j :: 0 <= j < |chapters| ==> chapters[j].time > t
    decreases |chapters|
  {
    if chapters == [] then None
    else if chapters[|chapters| - 1].time <= t then Some(|chapters| - 1)
    else LastAtOrBefore(chapters[..|chapters| - 1], t)
  }

  /** The window of chapter `i`: from its start to the next chapter's start, or to the
      end of the media for the last chapter. The next start is taken only when it is
      truthy (`nextChapter?.time || duration.actual`), so a next chapter at 0 also
      yields the media's end. */
  function WindowAt(chapters: seq<Chapter>, i: nat, actualDuration: real): ChapterWindow
    requires i < |chapters|
  {
    var end :=
      if i + 1 < |chapters| && chapters[i + 1].time != 0.0 then chapters[i + 1].time
      else actualDuration;
    ChapterWindow(chapters[i].id, Some(chapters[i].time), end)
  }

  /** The half-open window test of the fast path; a missing start compares false. */
  predicate InWindow(w: ChapterWindow, t: real) {
    w.start.Some? && w.start.value <= t && t < w.end
  }

  /** The chapter resolver the store is meant to implement: the window of the last
      chapter that starts at or before `t`, if there is one. */
  function Resolve(chapters: seq<Chapter>, t: real, actualDuration: real): Option<ChapterWindow> {
    match LastAtOrBefore(chapters, t)
    case Some(i) => Some(WindowAt(chapters, i, actualDuration))
    case None => None
  }

  predicate Sorted(chapters: seq<Chapter>) {
    forall i, j :: 0 <= i < j < |chapters| ==> chapters[i].time <= chapters[j].time
  }

  /** For chapters sorted by start time and a position before the end of the media,
      a window is found exactly when the position is at or after the first chapter's
      start; the window found is the last chapter starting at or before the position,
      and the position lies inside it. */
  lemma ResolveContains(chapters: seq<Chapter>, t: real, actualDuration: real)
    requires Sorted(chapters) && t < actualDuration
    ensures Resolve(chapters, t, actualDuration).Some? <==> (|chapters| > 0 && chapters[0].time <= t)
    ensures Resolve(chapters, t, actualDuration).Some? ==>
      InWindow(Resolve(chapters, t, actualDuration).value, t)
  {
    var r := LastAtOrBefore(chapters, t);
    if r.Some? {
      assert chapters[0].time <= chapters[r.value].time;
    } else if |chapters| > 0 {
      assert chapters[0].time > t;
    }
  }

  /** Consecutive windows meet: a chapter's window ends where the next one starts
      (when that start is non-zero), so the windows cover the media without gaps. */
  lemma WindowsAdjacent(chapters: seq<Chapter>, i: nat, actualDuration: real)
    requires i + 1 < |chapters| && chapters[i + 1].time != 0.0
    ensures WindowAt(chapters, i, actualDuration).end == WindowAt(chapters, i + 1, actualDuration).start.value
  {
  }

  /** The last chapter's window ends at the media's end. */
  lemma LastWindowEndsAtDuration(chapters: seq<Chapter>, actualDuration: real)
    requires |chapters| > 0
    ensures WindowAt(chapters, |chapters| - 1, actualDuration).end == actualDuration
  {
  }

  /** The window `updateChapter` leaves behind, as written: the current window is kept
      while `t` lies inside it; otherwise the scan's chapter gives the window; when the
      scan finds none, a current window is rebuilt from itself, with the id kept, the
      start read from a `time` field it does not have, and the media's end. */
  function UpdatedWindow(current: Option<ChapterWindow>, chapters: seq<Chapter>, t: real,
                         actualDuration: real): Option<ChapterWindow>
  {
    if current.Some? && InWindow(current.value, t) then current
    else match LastAtOrBefore(chapters, t)
      case Some(i) => Some(WindowAt(chapters, i, actualDuration))
      case None =>
        if current.Some? then Some(ChapterWindow(current.value.id, None, actualDuration)) else None
  }

  /** Outside the case where the scan finds nothing, the store agrees with the resolver
      up to its fast path: it keeps a current window that holds `t`, and otherwise
      takes the resolver's window. With no current window it is the resolver. */
  lemma UpdatedWindowIsResolve(current: Option<ChapterWindow>, chapters: seq<Chapter>, t: real,
                               actualDuration: real)
    requires current.None? || LastAtOrBefore(chapters, t).Some?
    ensures UpdatedWindow(current, chapters, t, actualDuration) ==
      if current.Some? && InWindow(current.value, t) then current
      else Resolve(chapters, t, actualDuration)
  {
  }

  /** With a window left over and `t` before every chapter, the store keeps the old id
      and loses the start: chapter 1's window, a seek to 5 before the first chapter
      (at 10), and the store holds id 1 without a start where the resolver has none. */
  lemma StaleWindowBeforeFirstChapter()
    ensures UpdatedWindow(Some(ChapterWindow(1, Some(40.0), 120.0)),
                          [Chapter(0, 10.0), Chapter(1, 40.0)], 5.0, 120.0)
            == Some(ChapterWindow(1, None, 120.0))
    ensures Resolve([Chapter(0, 10.0), Chapter(1, 40.0)], 5.0, 120.0) == None
  {
    var cs := [Chapter(0, 10.0), Chapter(1, 40.0)];
    assert cs[..1] == [Chapter(0, 10.0)];
    assert cs[..1][..0] == [];
  }

  /** Running `updateChapter` a second time at the same position changes nothing. */
  lemma UpdatedWindowIdempotent(current: Option<ChapterWindow>, chapters: seq<Chapter>, t: real,
                                actualDuration: real)
    ensures var w := UpdatedWindow(current, chapters, t, actualDuration);
            UpdatedWindow(w, chapters, t, actualDuration) == w
  {
  }

  class Store {
    var mediaId: Option<string>
    var duration: Option<Duration>
    var progress: Option<Progress>
    var playbackRate: Option<real>
    var chapters: seq<Chapter>
    var playing: bool
    var currentChapter: Option<ChapterWindow>

    /** Real values are the actual ones divided by the (positive) rate in force. */
    ghost predicate Valid()
      reads this
    {
      && (playbackRate.Some? ==> playbackRate.value > 0.0)
      && (playbackRate.Some? && duration.Some? ==>
            duration.value.realTime == duration.value.actual / playbackRate.value)
      && (playbackRate.Some? && progress.Some? ==>
            progress.value.realTime == progress.value.actual / playbackRate.value)
    }

    /** The store as the page creates it: nothing loaded. */
    constructor ()
      ensures Valid()
      ensures mediaId.None? && duration.None? && progress.None? && playbackRate.None?
      ensures chapters == [] && !playing && currentChapter.None?
    {
      mediaId := None;
      duration := None;
      progress := None;
      playbackRate := None;
      chapters := [];
      playing := false;
      currentChapter := None;
    }

    /** `loadMedia`: id, rate and chapters first, then the duration, then the progress,
        so the percentage and the chapter lookup see the new duration. The current
        window is not reset. */
    method LoadMedia(id: string, actualTime: real, actualDuration: real, rate: real,
                     chapters: seq<Chapter>)
      requires Valid() && rate > 0.0
      modifies this
      ensures Valid()
      ensures mediaId == Some(id) && playbackRate == Some(rate) && this.chapters == chapters
      ensures duration == Some(Duration(actualDuration / rate, actualDuration))
      ensures progress == Some(Progress(actualTime / rate, actualTime,
                                        Percent(actualTime, actualDuration)))
      ensures currentChapter == UpdatedWindow(old(currentChapter), chapters, actualTime, actualDuration)
      ensures playing == old(playing)
    {
      mediaId := Some(id);
      playbackRate := Some(rate);
      this.chapters := chapters;

      SetDuration(actualDuration);
      SetProgress(actualTime);
      PercentIgnoresRate(actualTime, actualDuration, rate);
    }

    method SetPlaying()
      modifies this`playing
      ensures playing
    {
      playing := true;
    }

    method SetPaused()
      modifies this`playing
      ensures !playing
    {
      playing := false;
    }

    /** `setDuration`: records the duration in both times. The progress, and so the
        percentage, is not recomputed. */
    method SetDuration(actualDuration: real)
      requires playbackRate.Some? && playbackRate.value > 0.0
      modifies this`duration
      ensures old(Valid()) ==> Valid()
      ensures duration == Some(Duration(actualDuration / playbackRate.value, actualDuration))
    {
      duration := Some(Duration(actualDuration / playbackRate.value, actualDuration));
    }

    /** `setProgress`: records the position in both times with its percentage of the
        recorded duration, then updates the chapter window. */
    method SetProgress(actualTime: real)
      requires playbackRate.Some? && playbackRate.value > 0.0 && duration.Some?
      modifies this`progress, this`currentChapter
      ensures old(Valid()) ==> Valid()
      ensures progress == Some(Progress(actualTime / playbackRate.value, actualTime,
                                        Percent(actualTime / playbackRate.value, duration.value.realTime)))
      ensures currentChapter == UpdatedWindow(old(currentChapter), chapters, actualTime, duration.value.actual)
    {
      var realTime := actualTime / playbackRate.value;
      progress := Some(Progress(realTime, actualTime, Percent(realTime, duration.value.realTime)));
      UpdateChapter();
    }

    /** `setPlaybackRate`: only the rate and the values derived from it change; the
        actual duration and position stay, and so does the percentage. */
    method SetPlaybackRate(rate: real)
      requires Valid() && rate > 0.0 && duration.Some? && progress.Some?
      modifies this`playbackRate, this`duration, this`progress, this`currentChapter
      ensures Valid()
      ensures playbackRate == Some(rate)
      ensures duration.Some? && duration.value.actual == old(duration.value.actual)
      ensures progress.Some? && progress.value.actual == old(progress.value.actual)
      ensures duration.value.realTime == duration.value.actual / rate
      ensures progress.value.realTime == progress.value.actual / rate
      ensures progress.value.percent == Percent(progress.value.actual, duration.value.actual)
      ensures currentChapter ==
        UpdatedWindow(old(currentChapter), chapters, progress.value.actual, duration.value.actual)
    {
      playbackRate := Some(rate);

      SetDuration(duration.value.actual);
      SetProgress(progress.value.actual);
      PercentIgnoresRate(progress.value.actual, duration.value.actual, rate);
    }

    /** `updateChapter`: keep the current window while the position lies inside it;
        otherwise scan the chapters from the last to the first for one that starts at
        or before the position. */
    method UpdateChapter()
      requires progress.Some? && duration.Some?
      modifies this`currentChapter
      ensures currentChapter ==
        UpdatedWindow(old(currentChapter), chapters, progress.value.actual, duration.value.actual)
    {
      var actualTime := progress.value.actual;
      var current := currentChapter;

      if current.Some? && InWindow(current.value, actualTime) {
        return;
      }

      var found: Option<nat> := None;
      var i: int := |chapters| - 1;
      while i >= 0
        invariant -1 <= i < |chapters|
        invariant found.None?
        invariant forall j :: i < j < |chapters| ==> chapters[j].time > actualTime
      {
        if actualTime >= chapters[i].time {
          found := Some(i);
          break;
        }
        i := i - 1;
      }

      if found.Some? {
        currentChapter := Some(WindowAt(chapters, found.value, duration.value.actual));
      } else if current.Some? {
        currentChapter := Some(ChapterWindow(current.value.id, None, duration.value.actual));
      }
    }
  }

  /** The worked example: a 120 s medium (engine time) at rate 2 has a real duration of
      60 s; at position 60 the real position is 30 and the percentage 50, and with
      chapters starting at 0 and 40 the window is chapter 1's, from 40 to 120. */
  method LoadExample() returns (realDuration: real, realTime: real, percent: Option<real>,
                                window: Option<ChapterWindow>)
    ensures realDuration == 60.0 && realTime == 30.0 && percent == Some(50.0)
    ensures window == Some(ChapterWindow(1, Some(40.0), 120.0))
  {
    var store := new Store();
    store.LoadMedia("M1", 60.0, 120.0, 2.0, [Chapter(0, 0.0), Chapter(1, 40.0)]);
    realDuration := store.duration.value.realTime;
    realTime := store.progress.value.realTime;
    percent := store.progress.value.percent;
    window := store.currentChapter;
  }
}
