/** The browser objects the hooks act on, reduced to the state the hooks read and write:
    the audio element (or the media engine standing in front of it), the window's
    interval timers and its `beforeunload` guard, and the listeners registered on
    event targets. Events are not queued here: a handler runs when the environment
    calls the hook method that handles it. */
module Browser {
  import opened Wrappers

  /** The audio element: position and duration in engine time, the paused flag, the
      rate and the HTML `readyState` (4 is HAVE_ENOUGH_DATA). */
  class AudioElement {
    var currentTime: real
    var duration: real
    var paused: bool
    var playbackRate: real
    var readyState: int

    constructor (duration: real)
      ensures currentTime == 0.0 && this.duration == duration && paused
      ensures playbackRate == 1.0 && readyState == 0
    {
      currentTime := 0.0;
      this.duration := duration;
      paused := true;
      playbackRate := 1.0;
      readyState := 0;
    }

    /** `audio.play()`: the element leaves the paused state (the `play` event follows). */
    method Play()
      modifies this
      ensures !paused
      ensures currentTime == old(currentTime) && duration == old(duration)
      ensures playbackRate == old(playbackRate) && readyState == old(readyState)
    {
      paused := false;
    }

    /** A new source taken by the element (what the media player's `load` does to it):
        the element's load algorithm leaves it paused, with the new media's duration. */
    method NewSource(duration: real)
      modifies this
      ensures paused && this.duration == duration
      ensures currentTime == old(currentTime)
      ensures playbackRate == old(playbackRate) && readyState == old(readyState)
    {
      paused := true;
      this.duration := duration;
    }

    /** `audio.pause()`: the element enters the paused state (the `pause` event follows). */
    method Pause()
      modifies this
      ensures paused
      ensures currentTime == old(currentTime) && duration == old(duration)
      ensures playbackRate == old(playbackRate) && readyState == old(readyState)
    {
      paused := true;
    }
  }

  /** What an interval timer does when it fires: push the current position, as a
      durable write when `persist` is set. `period` is its delay in milliseconds. */
  datatype Timer = Timer(period: real, persist: bool)

  /** The window: its active interval timers by handle, and whether the hook's
      `beforeunload` handler is installed. Adding the same handler function twice
      installs it once, so the guard is a flag. */
  class BrowserWindow {
    var intervals: map<nat, Timer>
    var nextHandle: nat
    var unloadGuard: bool

    /** Handles are positive and never reused. */
    ghost predicate Valid()
      reads this
    {
      nextHandle >= 1 && forall h :: h in intervals ==> 1 <= h < nextHandle
    }

    constructor ()
      ensures Valid() && intervals == map[] && !unloadGuard
    {
      intervals := map[];
      nextHandle := 1;
      unloadGuard := false;
    }

    /** `window.setInterval`: arms a timer under a handle that was never used before. */
    method SetInterval(t: Timer) returns (h: nat)
      requires Valid()
      modifies this
      ensures Valid()
      ensures h !in old(intervals) && h >= 1
      ensures intervals == old(intervals)[h := t]
      ensures unloadGuard == old(unloadGuard)
    {
      h := nextHandle;
      intervals := intervals[h := t];
      nextHandle := nextHandle + 1;
    }

    /** `window.clearInterval`: disarms the timer under `h`; an unknown or undefined
        handle is ignored. */
    method ClearInterval(h: Option<nat>)
      requires Valid()
      modifies this
      ensures Valid()
      ensures intervals == if h.Some? then old(intervals) - {h.value} else old(intervals)
      ensures unloadGuard == old(unloadGuard)
    {
      if h.Some? {
        intervals := intervals - {h.value};
      }
    }

    /** `addEventListener("beforeunload", hook.beforeUnload)`. */
    method AddUnloadGuard()
      requires Valid()
      modifies this
      ensures Valid() && unloadGuard && intervals == old(intervals)
    {
      unloadGuard := true;
    }

    /** `removeEventListener("beforeunload", hook.beforeUnload)`. */
    method RemoveUnloadGuard()
      requires Valid()
      modifies this
      ensures Valid() && !unloadGuard && intervals == old(intervals)
    {
      unloadGuard := false;
    }
  }

  /** An element's attributes, by name. */
  class HtmlElement {
    var attributes: map<string, string>

    constructor (attributes: map<string, string>)
      ensures this.attributes == attributes
    {
      this.attributes := attributes;
    }
  }

  /** Where a listener is registered: an element of the hook, the window, or the body. */
  datatype Target = Element(name: string) | WindowTarget | Body

  /** One registration: the target, the event name and the callback, which is a closure
      created for this registration and identified by a number. */
  datatype Listener = Listener(target: Target, event: string, callback: nat)

  /** Every listener registered on the page's event targets. */
  class EventTargets {
    var listeners: set<Listener>
    var nextCallback: nat

    ghost predicate Valid()
      reads this
    {
      forall l :: l in listeners ==> l.callback < nextCallback
    }

    constructor ()
      ensures Valid() && listeners == {}
    {
      listeners := {};
      nextCallback := 0;
    }

    /** `target.addEventListener(event, callback)` with a freshly created callback. */
    method AddEventListener(target: Target, event: string) returns (l: Listener)
      requires Valid()
      modifies this
      ensures Valid()
      ensures l.target == target && l.event == event && l.callback == old(nextCallback)
      ensures l !in old(listeners) && listeners == old(listeners) + {l}
      ensures nextCallback == old(nextCallback) + 1
    {
      l := Listener(target, event, nextCallback);
      listeners := listeners + {l};
      nextCallback := nextCallback + 1;
    }

    /** `target.removeEventListener(event, callback)`. */
    method RemoveEventListener(l: Listener)
      requires Valid()
      modifies this
      ensures Valid() && listeners == old(listeners) - {l} && nextCallback == old(nextCallback)
    {
      listeners := listeners - {l};
    }
  }
}
