/** The time bar of new/assets/js/hooks/timeBar.js, a reduced rewrite of the first one.

    The pointer position follows every move, dragging or not; a press with the primary
    button only sets the dragging flag (it neither snapshots nor moves the position);
    a release while dragging seeks to the last ratio, which is still undefined when
    the pointer has not moved over the page yet. There is no cancel on leaving. */
module TimeBarNew {
  import opened Js
  import opened Browser
  import TimeBar

  class Hook {
    const targets: EventTargets
    var dragging: bool
    /** The clientWidth of the bar's first child. */
    var width: real
    /** Position, ratio and percent of the last move; undefined (NaN) before it. */
    var scrub: TimeBar.Scrub
    /** The ratios passed to the player's `seekRatio`, oldest first. */
    var seeks: seq<Number>
    /** The (target, event, callback) registrations made by `attach`. */
    var listeners: seq<Listener>

    ghost predicate Valid()
      reads this, targets
    {
      targets.Valid() && width > 0.0
    }

    /** `mounted`: four listeners are attached, in order. */
    constructor Mounted(targets: EventTargets, width: real)
      requires targets.Valid() && width > 0.0
      modifies targets
      ensures Valid() && this.targets == targets && this.width == width
      ensures !dragging && scrub == TimeBar.Unset && seeks == []
      ensures var c := old(targets.nextCallback);
        listeners == [Listener(Element("root"), "mousedown", c), Listener(WindowTarget, "mousemove", c + 1),
                      Listener(WindowTarget, "mouseup", c + 2), Listener(WindowTarget, "resize", c + 3)]
      ensures targets.listeners == old(targets.listeners) + {listeners[0], listeners[1], listeners[2], listeners[3]}
    {
      this.targets := targets;
      dragging := false;
      this.width := width;
      scrub := TimeBar.Unset;
      seeks := [];
      listeners := [];
      new;
      ghost var before, c := targets.listeners, targets.nextCallback;
      var l0 := Attach(Element("root"), "mousedown");
      assert targets.listeners == before + {l0} && targets.nextCallback == c + 1;
      var l1 := Attach(WindowTarget, "mousemove");
      assert targets.listeners == before + {l0, l1} && targets.nextCallback == c + 2;
      var l2 := Attach(WindowTarget, "mouseup");
      assert targets.listeners == before + {l0, l1, l2} && targets.nextCallback == c + 3;
      var l3 := Attach(WindowTarget, "resize");
      assert targets.listeners == before + {l0, l1, l2, l3};
      assert listeners == [l0, l1, l2, l3];
    }

    /** `attach`: registers a fresh callback and appends the registration. */
    method Attach(target: Target, event: string) returns (l: Listener)
      requires Valid()
      modifies this`listeners, targets
      ensures Valid()
      ensures l == Listener(target, event, old(targets.nextCallback)) && l !in old(targets.listeners)
      ensures listeners == old(listeners) + [l] && targets.listeners == old(targets.listeners) + {l}
      ensures targets.nextCallback == old(targets.nextCallback) + 1
    {
      l := targets.AddEventListener(target, event);
      listeners := listeners + [l];
    }

    /** `mousedown`: the primary button alone starts a drag; nothing else changes. */
    method MouseDown(buttons: int)
      requires Valid()
      modifies this`dragging
      ensures Valid()
      ensures dragging <==> buttons == 1 || old(dragging)
    {
      if buttons == 1 {
        dragging := true;
      }
    }

    /** `mousemove`: the position follows the pointer whether or not a drag is on. */
    method MouseMove(x: real)
      requires Valid()
      modifies this`scrub
      ensures Valid() && scrub == TimeBar.ScrubAt(x, width)
      ensures scrub.ratio.v <= 1.0 && (x < width ==> scrub.position == Num(x))
    {
      scrub := TimeBar.ScrubAt(x, width);
    }

    /** `mouseup`: ends a drag with exactly one seek to the current ratio. */
    method MouseUp()
      requires Valid()
      modifies this`dragging, this`seeks
      ensures Valid() && !dragging
      ensures seeks == if old(dragging) then old(seeks) + [scrub.ratio] else old(seeks)
    {
      if dragging {
        dragging := false;
        seeks := seeks + [scrub.ratio];
      }
    }

    /** `resize`: only the width changes. */
    method Resize(width: real)
      requires Valid() && width > 0.0
      modifies this`width
      ensures Valid() && this.width == width
    {
      this.width := width;
    }

    /** `destroyed`: every appended registration is removed, and no other. */
    method Destroyed()
      requires Valid()
      modifies targets
      ensures Valid()
      ensures targets.listeners == old(targets.listeners) - set l | l in listeners
    {
      for k := 0 to |listeners|
        invariant targets.Valid()
        invariant targets.listeners == old(targets.listeners) - set i | 0 <= i < k :: listeners[i]
      {
        targets.RemoveEventListener(listeners[k]);
      }
      assert (set i | 0 <= i < |listeners| :: listeners[i]) == set l | l in listeners;
    }
  }

  /** A press and release before any move seeks to an undefined ratio; a move that is
      not part of a drag still moves the position, and the next drag seeks to it
      even though the press happened elsewhere. */
  method SeekBeforeAnyMove() returns (seeks: seq<Number>)
    ensures seeks == [NaN, Num(0.25)]
  {
    var targets := new EventTargets();
    var hook := new Hook.Mounted(targets, 200.0);
    hook.MouseDown(1);
    hook.MouseUp();
    hook.MouseMove(50.0);
    hook.MouseUp();
    hook.MouseDown(1);
    hook.MouseUp();
    seeks := hook.seeks;
  }

  /** Mounting registers four listeners and destroying removes exactly those. */
  method MountThenDestroy() returns (registered: set<Listener>, remaining: set<Listener>)
    ensures |registered| == 4 && remaining == {}
  {
    var targets := new EventTargets();
    var hook := new Hook.Mounted(targets, 200.0);
    registered := targets.listeners;
    hook.Destroyed();
    remaining := targets.listeners;
  }
}
