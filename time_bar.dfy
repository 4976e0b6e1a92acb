/** The scrubbable time bar of assets/js/hooks/timeBar.js.

    A press with the primary button starts a drag, remembering the scrub state it
    replaces; moves update the scrub state (position, ratio, percent) and the timecode
    shown; a release while dragging seeks the player to the ratio, and leaving the page
    while dragging restores the remembered state without seeking. Every listener the
    hook attaches is recorded so that `destroyed` can remove it. */
module TimeBar {
  import opened Wrappers
  import opened Js
  import opened Browser

  // ---------------------------------------------------------------------------
  // Timecodes

  /** One field of a timecode: a value below 10 gets a "0" in front (also a negative
      one, which gives "0-1"). */
  function Pad(v: int): (s: string)
    ensures v >= 0 ==> s == if v < 10 then "0" + NatToString(v) else NatToString(v)
  {
    if v < 10 then "0" + IntToString(v) else IntToString(v)
  }

  /** `formatTimecode` after `parseInt`: hours, minutes and seconds (minutes and
      seconds with JavaScript's signed `%`) put together by Assemble. */
  function Timecode(n: int): string {
    Assemble(n / 3600, Rem(n / 60, 60), Rem(n, 60))
  }

  /** Each field padded; the hours field dropped when it reads "00"; the fields joined
      with ':'; one leading '0' stripped. */
  function Assemble(hours: int, minutes: int, seconds: int): string {
    var fields := (if Pad(hours) == "00" then [] else [Pad(hours)]) + [Pad(minutes), Pad(seconds)];
    var joined := Join(fields, ":");
    if StartsWith(joined, "0") then joined[1..] else joined
  }

  /** `formatTimecode(secs)`: truncated to whole seconds; NaN gives "NaN" in every field. */
  function FormatTimecode(secs: Number): string {
    if secs.NaN? then "NaN:NaN:NaN" else Timecode(Trunc(secs.v))
  }

  /** A padded field of a value below 60 is two digits reading that value. */
  lemma PadField(v: nat)
    requires v < 60
    ensures |Pad(v)| == 2 && AllDigits(Pad(v)) && DigitsValue(Pad(v)) == v
  {
    DigitsValueOfNatToString(v);
    if v < 10 {
      var d := NatToString(v);
      assert Pad(v) == "0" + d && |d| == 1;
      assert Pad(v)[..1] == "0";
    } else {
      assert v / 10 < 10;
      assert NatToString(v) == NatToString(v / 10) + [DigitChar(v % 10)];
    }
  }

  /** The padded field of a natural number: "0" and its digits below 10, its digits
      otherwise; so it reads "00" only for 0 and starts with '0' only below 10. */
  lemma PadNat(v: nat)
    ensures v < 10 ==> Pad(v) == "0" + NatToString(v)
    ensures v >= 10 ==> Pad(v) == NatToString(v) && Pad(v)[0] != '0'
    ensures Pad(v) == "00" <==> v == 0
  {
    var d := NatToString(v);
    if v < 10 {
      assert |d| == 1;
      assert ("0" + d)[1] == d[0];
    } else {
      assert |d| >= 2;
    }
  }

  /** Stripping the leading '0' of a joined timecode. */
  lemma StripLead(first: string, rest: string, digits: string)
    requires first == "0" + digits || (first == digits && digits != [] && digits[0] != '0')
    ensures var joined := first + rest;
      (if StartsWith(joined, "0") then joined[1..] else joined) == digits + rest
  {
    var joined := first + rest;
    if first == "0" + digits {
      assert joined == "0" + (digits + rest);
      assert joined[..1] == "0";
    } else {
      assert joined[0] == digits[0];
    }
  }

  lemma AssembleWithoutHours(m: nat, s: nat)
    ensures Assemble(0, m, s) == NatToString(m) + ":" + Pad(s)
  {
    PadNat(0);
    PadNat(m);
    assert (if Pad(0) == "00" then [] else [Pad(0)]) + [Pad(m), Pad(s)] == [Pad(m), Pad(s)];
    StripTwo(Pad(m), Pad(s), NatToString(m));
  }

  lemma StripTwo(a: string, b: string, digits: string)
    requires a == "0" + digits || (a == digits && digits != [] && digits[0] != '0')
    ensures var j := Join([a, b], ":");
      (if StartsWith(j, "0") then j[1..] else j) == digits + ":" + b
  {
    JoinTwo(a, b);
    StripLead(a, ":" + b, digits);
    assert digits + (":" + b) == digits + ":" + b;
  }

  lemma AssembleWithHours(h: nat, m: nat, s: nat)
    requires h > 0
    ensures Assemble(h, m, s) == NatToString(h) + ":" + Pad(m) + ":" + Pad(s)
  {
    PadNat(h);
    var fields := [Pad(h), Pad(m), Pad(s)];
    assert (if Pad(h) == "00" then [] else [Pad(h)]) + [Pad(m), Pad(s)] == fields;
    JoinThree(Pad(h), Pad(m), Pad(s));
    StripThree(Pad(h), Pad(m), Pad(s), NatToString(h));
  }

  lemma StripThree(a: string, b: string, c: string, digits: string)
    requires a == "0" + digits || (a == digits && digits != [] && digits[0] != '0')
    ensures var j := a + (":" + b + ":" + c);
      (if StartsWith(j, "0") then j[1..] else j) == digits + ":" + b + ":" + c
  {
    StripLead(a, ":" + b + ":" + c, digits);
  }
  lemma JoinTwo(a: string, b: string)
    ensures Join([a, b], ":") == a + (":" + b)
  {
    assert [a, b][1..] == [b];
  }
  lemma JoinThree(a: string, b: string, c: string)
    ensures Join([a, b, c], ":") == a + (":" + b + ":" + c)
  {
    var fields := [a, b, c];
    assert fields[1..] == [b, c] && fields[1..][1..] == [c];
    assert Join(fields[1..], ":") == b + ":" + c;
  }

  /** The shape of a timecode of a non-negative number of seconds: without hours, the
      minutes unpadded and the seconds padded; with hours, the hours unpadded and the
      minutes and seconds padded. */
  lemma TimecodeShape(n: nat)
    ensures var h, m, s := n / 3600, n / 60 % 60, n % 60;
      Timecode(n) == if h == 0 then NatToString(m) + ":" + Pad(s)
                     else NatToString(h) + ":" + Pad(m) + ":" + Pad(s)
  {
    var h, m, s := n / 3600, n / 60 % 60, n % 60;
    assert Timecode(n) == Assemble(h, m, s);
    if h == 0 {
      AssembleWithoutHours(m, s);
    } else {
      AssembleWithHours(h, m, s);
    }
  }

  /** Reading a timecode back: two or three ':'-separated fields of digits. */
  function ParseTimecode(s: string): (r: Option<nat>) {
    ParseFields(Split(s, ":"))
  }

  function ParseFields(parts: seq<string>): (r: Option<nat>) {
    if |parts| == 2 && AllDigits(parts[0]) && AllDigits(parts[1]) then
      Some(DigitsValue(parts[0]) * 60 + DigitsValue(parts[1]))
    else if |parts| == 3 && AllDigits(parts[0]) && AllDigits(parts[1]) && AllDigits(parts[2]) then
      Some(DigitsValue(parts[0]) * 3600 + DigitsValue(parts[1]) * 60 + DigitsValue(parts[2]))
    else None
  }

  lemma HoursUnique(n: nat, q: nat, r: nat)
    requires r < 3600 && n == q * 3600 + r
    ensures n / 3600 == q
  {
  }

  /** Hours, minutes and seconds of a timecode add back up to the total. */
  lemma TimecodeFields(n: nat)
    ensures n == n / 3600 * 3600 + n / 60 % 60 * 60 + n % 60
  {
    var q := n / 60;
    assert n == q * 60 + n % 60;
    assert q == q / 60 * 60 + q % 60;
    assert n == q / 60 * 3600 + (q % 60 * 60 + n % 60);
    HoursUnique(n, q / 60, q % 60 * 60 + n % 60);
  }

  /** Two digit fields joined by ':' read as minutes and seconds. */
  lemma ParseTwoFields(a: string, b: string, m: nat, s: nat)
    requires AllDigits(a) && AllDigits(b) && DigitsValue(a) == m && DigitsValue(b) == s
    ensures ParseTimecode(a + ":" + b) == Some(m * 60 + s)
  {
    SplitTwo(a, b);
    FieldsTwo(a, b, m, s);
  }

  lemma FieldsTwo(a: string, b: string, m: nat, s: nat)
    requires AllDigits(a) && AllDigits(b) && DigitsValue(a) == m && DigitsValue(b) == s
    ensures ParseFields([a, b]) == Some(m * 60 + s)
  {
    var parts := [a, b];
    assert |parts| == 2 && parts[0] == a && parts[1] == b;
  }

  lemma FieldsThree(a: string, b: string, c: string, h: nat, m: nat, s: nat)
    requires AllDigits(a) && AllDigits(b) && AllDigits(c)
    requires DigitsValue(a) == h && DigitsValue(b) == m && DigitsValue(c) == s
    ensures ParseFields([a, b, c]) == Some(h * 3600 + m * 60 + s)
  {
    var parts := [a, b, c];
    assert |parts| == 3 && parts[0] == a && parts[1] == b && parts[2] == c;
  }

  lemma SplitTwo(a: string, b: string)
    requires AllDigits(a) && AllDigits(b)
    ensures Split(a + ":" + b, ":") == [a, b]
  {
    NoColon(a);
    NoColon(b);
    SplitAfterFirst(a, ":", b);
    SplitWithout(b, ":");
  }

  /** Three digit fields joined by ':' read as hours, minutes and seconds. */
  lemma ParseThreeFields(a: string, b: string, c: string, h: nat, m: nat, s: nat)
    requires AllDigits(a) && AllDigits(b) && AllDigits(c)
    requires DigitsValue(a) == h && DigitsValue(b) == m && DigitsValue(c) == s
    ensures ParseTimecode(a + ":" + b + ":" + c) == Some(h * 3600 + m * 60 + s)
  {
    SplitThree(a, b, c);
    FieldsThree(a, b, c, h, m, s);
  }

  lemma SplitThree(a: string, b: string, c: string)
    requires AllDigits(a) && AllDigits(b) && AllDigits(c)
    ensures Split(a + ":" + b + ":" + c, ":") == [a, b, c]
  {
    NoColon(a);
    SplitTwo(b, c);
    assert a + ":" + b + ":" + c == a + ":" + (b + ":" + c);
    SplitAfterFirst(a, ":", b + ":" + c);
  }

  lemma NoColon(a: string)
    requires AllDigits(a)
    ensures ':' !in a
  {
    assert forall i :: 0 <= i < |a| ==> IsDigit(a[i]);
  }

  lemma ParseMinutes(m: nat, s: nat)
    requires s < 60
    ensures ParseTimecode(NatToString(m) + ":" + Pad(s)) == Some(m * 60 + s)
  {
    PadField(s);
    DigitsValueOfNatToString(m);
    ParseTwoFields(NatToString(m), Pad(s), m, s);
  }

  lemma ParseHours(h: nat, m: nat, s: nat)
    requires m < 60 && s < 60
    ensures ParseTimecode(NatToString(h) + ":" + Pad(m) + ":" + Pad(s)) == Some(h * 3600 + m * 60 + s)
  {
    PadField(m);
    PadField(s);
    DigitsValueOfNatToString(h);
    ParseThreeFields(NatToString(h), Pad(m), Pad(s), h, m, s);
  }

  /** Every non-negative number of seconds is read back from its timecode, so different
      numbers of seconds never show the same timecode. */
  lemma ParseTimecodeOfTimecode(n: nat)
    ensures ParseTimecode(Timecode(n)) == Some(n)
  {
    if n < 3600 {
      ParseUnderHour(n);
    } else {
      ParseFromHour(n);
    }
  }

  lemma ParseUnderHour(n: nat)
    requires n < 3600
    ensures ParseTimecode(Timecode(n)) == Some(n)
  {
    var m, s := n / 60 % 60, n % 60;
    FieldsUnderHour(n);
    ReadWithoutHours(m, s);
  }

  lemma FieldsUnderHour(n: nat)
    requires n < 3600
    ensures Timecode(n) == Assemble(0, n / 60 % 60, n % 60)
    ensures n == n / 60 % 60 * 60 + n % 60
  {
    TimecodeFields(n);
  }

  lemma ReadWithoutHours(m: nat, s: nat)
    requires s < 60
    ensures ParseTimecode(Assemble(0, m, s)) == Some(m * 60 + s)
  {
    AssembleWithoutHours(m, s);
    ParseMinutes(m, s);
  }

  lemma ParseFromHour(n: nat)
    requires n >= 3600
    ensures ParseTimecode(Timecode(n)) == Some(n)
  {
    var h, m, s := n / 3600, n / 60 % 60, n % 60;
    FieldsFromHour(n);
    ReadWithHours(h, m, s);
  }

  lemma FieldsFromHour(n: nat)
    requires n >= 3600
    ensures n / 3600 > 0 && Timecode(n) == Assemble(n / 3600, n / 60 % 60, n % 60)
    ensures n == n / 3600 * 3600 + n / 60 % 60 * 60 + n % 60
  {
    TimecodeFields(n);
  }

  lemma ReadWithHours(h: nat, m: nat, s: nat)
    requires h > 0 && m < 60 && s < 60
    ensures ParseTimecode(Assemble(h, m, s)) == Some(h * 3600 + m * 60 + s)
  {
    AssembleWithHours(h, m, s);
    ParseHours(h, m, s);
  }

  lemma TimecodeInjective(a: nat, b: nat)
    requires Timecode(a) == Timecode(b)
    ensures a == b
  {
    ParseTimecodeOfTimecode(a);
    ParseTimecodeOfTimecode(b);
  }

  /** The four timecodes the hook is meant to show. */
  lemma TimecodeExamples()
    ensures Timecode(0) == "0:00" && Timecode(65) == "1:05"
    ensures Timecode(600) == "10:00" && Timecode(3661) == "1:01:01"
  {
    TimecodeOfZero();
    TimecodeOfMinute();
    TimecodeOfTenMinutes();
    TimecodeOfHour();
  }

  /** A single digit: its notation is that digit and its field is "0" before it. */
  lemma SingleDigit(v: nat)
    requires v < 10
    ensures NatToString(v) == [DigitChar(v)] && Pad(v) == ['0', DigitChar(v)]
  {
  }

  lemma TimecodeOfZero() ensures Timecode(0) == "0:00" {
    TimecodeShape(0);
    SingleDigit(0);
  }
  lemma TimecodeOfMinute() ensures Timecode(65) == "1:05" {
    TimecodeShape(65);
    assert 65 / 3600 == 0 && 65 / 60 % 60 == 1 && 65 % 60 == 5;
    SingleDigit(1);
    SingleDigit(5);
  }
  lemma TimecodeOfTenMinutes() ensures Timecode(600) == "10:00" {
    TimecodeShape(600);
    assert 600 / 3600 == 0 && 600 / 60 % 60 == 10 && 600 % 60 == 0;
    assert NatToString(10) == NatToString(1) + [DigitChar(0)];
    SingleDigit(1);
    SingleDigit(0);
  }
  lemma TimecodeOfHour() ensures Timecode(3661) == "1:01:01" {
    TimecodeShape(3661);
    assert 3661 / 3600 == 1 && 3661 / 60 % 60 == 1 && 3661 % 60 == 1;
    SingleDigit(1);
  }

  // ---------------------------------------------------------------------------
  // Hover styles

  const HoverPrefix: string := "group-hover:"

  /** `getHoverStyles`: the classes that start with "group-hover:", in order, with
      that prefix removed. */
  function HoverStyles(classes: seq<string>): (styles: seq<string>)
    ensures |styles| <= |classes|
    decreases |classes|
  {
    if classes == [] then []
    else
      var rest := HoverStyles(classes[1..]);
      if StartsWith(classes[0], HoverPrefix) then [classes[0][|HoverPrefix|..]] + rest else rest
  }

  /** A style is kept exactly when some class is that style behind the prefix. */
  lemma {:induction false} HoverStylesMembers(classes: seq<string>, style: string)
    ensures style in HoverStyles(classes) <==>
      exists c :: c in classes && StartsWith(c, HoverPrefix) && c[|HoverPrefix|..] == style
    decreases |classes|
  {
    if classes != [] {
      HoverStylesMembers(classes[1..], style);
      assert forall c :: c in classes <==> c == classes[0] || c in classes[1..];
    }
  }

  /** Filtering keeps the order: the styles of two lists in a row are the styles of
      the first followed by those of the second. */
  lemma {:induction false} HoverStylesAppend(a: seq<string>, b: seq<string>)
    ensures HoverStyles(a + b) == HoverStyles(a) + HoverStyles(b)
    decreases |a|
  {
    if a != [] {
      assert (a + b)[0] == a[0] && (a + b)[1..] == a[1..] + b;
      HoverStylesAppend(a[1..], b);
    } else {
      assert a + b == b;
    }
  }

  // ---------------------------------------------------------------------------
  // Scrub state

  /** Position, ratio and percent under the pointer; NaN while never set. The percent
      is kept as a number (the hook formats it with two decimals). */
  datatype Scrub = Scrub(position: Number, ratio: Number, percent: Number)

  const Unset: Scrub := Scrub(NaN, NaN, NaN)

  /** `updateState`: the position is capped at the bar's width but not raised to 0. */
  function ScrubAt(x: real, width: real): (s: Scrub)
    requires width > 0.0
    ensures s.position.Num? && s.ratio.Num? && s.percent.Num?
    ensures s.position.v == (if x < width then x else width)
    ensures s.ratio.v * width == s.position.v && s.ratio.v <= 1.0
    ensures s.percent.v == s.ratio.v * 100.0
    ensures x < 0.0 ==> s.ratio.v < 0.0
  {
    var position := if x < width then x else width;
    var ratio := position / width;
    Scrub(Num(position), Num(ratio), Num(ratio * 100.0))
  }

  /** Moving the pointer right never lowers the ratio. */
  lemma ScrubMonotone(x1: real, x2: real, width: real)
    requires width > 0.0 && x1 <= x2
    ensures ScrubAt(x1, width).ratio.v <= ScrubAt(x2, width).ratio.v
  {
    var p1 := if x1 < width then x1 else width;
    var p2 := if x2 < width then x2 else width;
    QuotientMonotone(p1, p2, width);
  }

  lemma QuotientMonotone(a: real, b: real, w: real)
    requires w > 0.0 && a <= b
    ensures a / w <= b / w
  {
    assert b / w - a / w == (b - a) / w;
  }

  /** `ratio * duration`, with NaN absorbing. */
  function Scale(a: Number, k: real): (r: Number)
    ensures r.Num? <==> a.Num?
  {
    if a.Num? then Num(a.v * k) else NaN
  }

  class Hook {
    const targets: EventTargets
    /** `data-duration`, in seconds. */
    const duration: real
    var dragging: bool
    var fullWidth: real
    var width: real
    var scrub: Scrub
    /** The scrub state a drag replaced; unset before the first drag. */
    var snapshot: Option<Scrub>
    /** The text of the timecode element. */
    var timecode: string
    /** The ratios passed to the player's `seekRatio`, oldest first. */
    var seeks: seq<real>
    /** The (target, event, callback) registrations made by `attach`. */
    var listeners: seq<Listener>

    ghost predicate Valid()
      reads this, targets
    {
      && targets.Valid() && width > 0.0
      && (dragging ==> snapshot.Some? && scrub.ratio.Num?)
    }

    /** `mounted`: five listeners are attached, in order. */
    constructor Mounted(targets: EventTargets, duration: real, fullWidth: real, width: real)
      requires targets.Valid() && width > 0.0
      modifies targets
      ensures Valid() && this.targets == targets && this.duration == duration
      ensures !dragging && this.fullWidth == fullWidth && this.width == width
      ensures scrub == Unset && snapshot.None? && seeks == []
      ensures var c := old(targets.nextCallback);
        listeners == [Listener(Element("wrapper"), "mousedown", c), Listener(WindowTarget, "mousemove", c + 1),
                      Listener(WindowTarget, "mouseup", c + 2), Listener(Body, "mouseleave", c + 3),
                      Listener(WindowTarget, "resize", c + 4)]
      ensures targets.listeners == old(targets.listeners) + {listeners[0], listeners[1], listeners[2], listeners[3], listeners[4]}
    {
      this.targets := targets;
      this.duration := duration;
      dragging := false;
      this.fullWidth := fullWidth;
      this.width := width;
      scrub := Unset;
      snapshot := None;
      timecode := "";
      seeks := [];
      listeners := [];
      new;
      ghost var before, c := targets.listeners, targets.nextCallback;
      var l0 := Attach(Element("wrapper"), "mousedown");
      assert targets.listeners == before + {l0} && targets.nextCallback == c + 1;
      var l1 := Attach(WindowTarget, "mousemove");
      assert targets.listeners == before + {l0, l1} && targets.nextCallback == c + 2;
      var l2 := Attach(WindowTarget, "mouseup");
      assert targets.listeners == before + {l0, l1, l2} && targets.nextCallback == c + 3;
      var l3 := Attach(Body, "mouseleave");
      assert targets.listeners == before + {l0, l1, l2, l3} && targets.nextCallback == c + 4;
      var l4 := Attach(WindowTarget, "resize");
      assert targets.listeners == before + {l0, l1, l2, l3, l4};
      assert listeners == [l0, l1, l2, l3, l4];
    }

    /** `attach`: registers a fresh callback and records the registration. */
    method Attach(target: Target, event: string) returns (l: Listener)
      requires Valid()
      modifies this`listeners, targets
      ensures Valid()
      ensures l == Listener(target, event, old(targets.nextCallback)) && l !in old(targets.listeners)
      ensures listeners == old(listeners) + [l] && targets.listeners == old(targets.listeners) + {l}
      ensures targets.nextCallback == old(targets.nextCallback) + 1
    {
      l := targets.AddEventListener(target, event);
      listeners := listeners + [l];
    }

    /** `updateUI`, reduced to the timecode text (the rest is layout). */
    method UpdateUI()
      modifies this`timecode
      ensures timecode == FormatTimecode(Scale(scrub.ratio, duration))
    {
      timecode := FormatTimecode(Scale(scrub.ratio, duration));
    }

    /** `mousedown`: only a press with exactly the primary button starts a drag. */
    method MouseDown(buttons: int, x: real)
      requires Valid()
      modifies this`snapshot, this`scrub, this`dragging, this`timecode
      ensures Valid()
      ensures buttons == 1 ==>
        && snapshot == Some(old(scrub)) && scrub == ScrubAt(x, width) && dragging
        && timecode == FormatTimecode(Scale(scrub.ratio, duration))
      ensures buttons != 1 ==>
        snapshot == old(snapshot) && scrub == old(scrub) && dragging == old(dragging)
        && timecode == old(timecode)
    {
      if buttons == 1 {
        snapshot := Some(scrub);
        scrub := ScrubAt(x, width);
        dragging := true;
        UpdateUI();
      }
    }

    /** `mousemove`: the scrub state follows the pointer, dragging or not. */
    method MouseMove(x: real)
      requires Valid()
      modifies this`scrub, this`timecode
      ensures Valid()
      ensures scrub == ScrubAt(x, width)
      ensures timecode == FormatTimecode(Scale(scrub.ratio, duration))
    {
      scrub := ScrubAt(x, width);
      UpdateUI();
    }

    /** `mouseup`: ends a drag with exactly one seek to the ratio. */
    method MouseUp()
      requires Valid()
      modifies this`dragging, this`seeks
      ensures Valid() && !dragging
      ensures old(dragging) ==> seeks == old(seeks) + [scrub.ratio.v]
      ensures !old(dragging) ==> seeks == old(seeks)
    {
      if dragging {
        dragging := false;
        seeks := seeks + [scrub.ratio.v];
      }
    }

    /** `mouseleave`: cancels a drag, putting back the state it replaced, with no seek. */
    method MouseLeave()
      requires Valid()
      modifies this`scrub, this`timecode, this`dragging
      ensures Valid() && !dragging
      ensures old(dragging) ==>
        scrub == old(snapshot).value && timecode == FormatTimecode(Scale(scrub.ratio, duration))
      ensures !old(dragging) ==> scrub == old(scrub) && timecode == old(timecode)
    {
      if dragging {
        scrub := snapshot.value;
        UpdateUI();
        dragging := false;
      }
    }

    /** `resize`: only the two widths change. */
    method Resize(fullWidth: real, width: real)
      requires Valid() && width > 0.0
      modifies this`fullWidth, this`width
      ensures Valid() && this.fullWidth == fullWidth && this.width == width
    {
      this.fullWidth := fullWidth;
      this.width := width;
    }

    /** `destroyed`: every recorded registration is removed, and no other. */
    method Destroyed()
      requires Valid()
      modifies targets
      ensures Valid()
      ensures targets.listeners == old(targets.listeners) - set l | l in listeners
    {
      for k := 0 to |listeners|
        invariant targets.Valid()
        invariant targets.listeners == old(targets.listeners) - set i | 0 <= i < k :: listeners[i]
      {
        targets.RemoveEventListener(listeners[k]);
      }
      assert (set i | 0 <= i < |listeners| :: listeners[i]) == set l | l in listeners;
    }
  }

  /** A drag that leaves the page is cancelled: the pre-drag state comes back and
      nothing is sought; a press with another button does not start a drag; a drag that
      is released seeks once. */
  method CancelledDrag() returns (scrub: Scrub, seeks: seq<real>)
    ensures scrub == ScrubAt(50.0, 200.0) && seeks == [0.5]
  {
    var targets := new EventTargets();
    var hook := new Hook.Mounted(targets, 600.0, 240.0, 200.0);
    hook.MouseMove(50.0);
    hook.MouseDown(1, 150.0);
    hook.MouseLeave();
    scrub := hook.scrub;
    hook.MouseDown(2, 150.0);
    hook.MouseUp();
    hook.MouseDown(1, 100.0);
    hook.MouseUp();
    seeks := hook.seeks;
  }

  /** Mounting registers five listeners and destroying removes all of them. */
  method MountThenDestroy() returns (registered: set<Listener>, remaining: set<Listener>)
    ensures |registered| == 5 && remaining == {}
  {
    var targets := new EventTargets();
    var hook := new Hook.Mounted(targets, 600.0, 240.0, 200.0);
    registered := targets.listeners;
    hook.Destroyed();
    remaining := targets.listeners;
  }
}
