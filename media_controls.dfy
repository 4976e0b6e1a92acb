/** The progress-bar drag of assets/js/hooks/media_controls.js (`setupPositionDrag`).

    A press seeks the player to the pointer's ratio at once and starts a drag; moves
    seek again only while the drag is on; a release ends it without seeking. The
    ratio is the pointer's offset over the bar's width, held to [0, 1]. */
module MediaControls {
  import opened Js

  /** `calcRatio`: `min(max(x / width, 0), 1)` in JavaScript numbers. A zero width
      makes the quotient infinite (held to 0 or 1) or, for a zero offset, NaN, which
      `Math.max` and `Math.min` pass through. */
  function CalcRatio(x: real, width: real): (r: Number)
    requires width >= 0.0
    ensures r.Num? ==> 0.0 <= r.v <= 1.0
    ensures r.NaN? <==> width == 0.0 && x == 0.0
    ensures width > 0.0 && 0.0 <= x <= width ==> r == Num(x / width)
  {
    if width == 0.0 then
      if x > 0.0 then Num(1.0) else if x < 0.0 then Num(0.0) else NaN
    else
      var ratio := x / width;
      Num(if ratio < 0.0 then 0.0 else if ratio > 1.0 then 1.0 else ratio)
  }

  /** Off the bar to the left reads as the start, off to the right as the end. */
  lemma CalcRatioOutside(x: real, width: real)
    requires width > 0.0
    ensures x <= 0.0 ==> CalcRatio(x, width) == Num(0.0)
    ensures x >= width ==> CalcRatio(x, width) == Num(1.0)
  {
    if x >= width {
      assert x / width >= 1.0;
    }
  }

  /** Moving right never lowers the ratio. */
  lemma CalcRatioMonotone(x1: real, x2: real, width: real)
    requires width > 0.0 && x1 <= x2
    ensures CalcRatio(x1, width).v <= CalcRatio(x2, width).v
  {
    assert x1 / width <= x2 / width;
  }

  /** A seek is a ratio in [0, 1] or NaN. */
  predicate SeekRatio(r: Number) {
    r.Num? ==> 0.0 <= r.v <= 1.0
  }

  /** The closed-over state of the three listeners: the drag flag and the ratios
      passed to the player's `seekRatio`, oldest first. */
  class PositionDrag {
    var dragging: bool
    var seeks: seq<Number>

    /** Every seek the drag has issued is a ratio in [0, 1] (or NaN). */
    ghost predicate Valid()
      reads this
    {
      forall i :: 0 <= i < |seeks| ==> SeekRatio(seeks[i])
    }

    constructor ()
      ensures Valid() && !dragging && seeks == []
    {
      dragging := false;
      seeks := [];
    }

    /** `mousedown`: seek to the pointer, then drag. */
    method MouseDown(x: real, width: real)
      requires Valid() && width >= 0.0
      modifies this
      ensures Valid() && dragging
      ensures seeks == old(seeks) + [CalcRatio(x, width)]
    {
      seeks := seeks + [CalcRatio(x, width)];
      dragging := true;
    }

    /** `mousemove`: seek to the pointer only while dragging. */
    method MouseMove(x: real, width: real)
      requires Valid() && width >= 0.0
      modifies this`seeks
      ensures Valid()
      ensures seeks == if dragging then old(seeks) + [CalcRatio(x, width)] else old(seeks)
    {
      if dragging {
        seeks := seeks + [CalcRatio(x, width)];
      }
    }

    /** `mouseup`: end the drag; no seek. */
    method MouseUp()
      requires Valid()
      modifies this`dragging
      ensures Valid() && !dragging
    {
      dragging := false;
    }
  }

  /** A hover before the press seeks nothing; press, move and release seek twice;
      a move after the release seeks nothing. */
  method DragSequence() returns (seeks: seq<Number>)
    ensures seeks == [Num(0.25), Num(1.0)]
  {
    var drag := new PositionDrag();
    drag.MouseMove(10.0, 200.0);
    drag.MouseDown(50.0, 200.0);
    drag.MouseMove(260.0, 200.0);
    drag.MouseUp();
    drag.MouseMove(20.0, 200.0);
    seeks := drag.seeks;
  }
}
