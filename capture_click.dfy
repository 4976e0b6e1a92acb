/** The click-capturing hook of assets/js/hooks/capture_click.js.

    At mount the hook reads the element's `phx-target` and `phx-event` attributes and
    collects every `phx-value-*` attribute into a payload keyed by the name without
    that prefix; each click then pushes that one event to that target, with the
    default action and the propagation of the click suppressed. */
module CaptureClick {
  import opened Wrappers
  import opened Js
  import opened Browser

  const ValuePrefix: string := "phx-value-"

  /** An attribute of the element, in document order: its name and value. */
  datatype Attribute = Attribute(name: string, value: string)

  /** The `phx-target`, `phx-event` and payload of one pushed event. */
  datatype PushTo = PushTo(target: Option<string>, event: Option<string>, values: map<string, string>)

  /** `getAttribute(name)` over the element's attributes: the first with that name. */
  function GetAttribute(attributes: seq<Attribute>, name: string): (v: Option<string>)
    ensures v.Some? <==> exists i :: 0 <= i < |attributes| && attributes[i].name == name
    ensures v.Some? ==> exists i :: 0 <= i < |attributes| && attributes[i] == Attribute(name, v.value)
  {
    if attributes == [] then None
    else if attributes[0].name == name then Some(attributes[0].value)
    else GetAttribute(attributes[1..], name)
  }

  /** `name.startsWith(prefix)` followed by `name.replace(prefix, '')`, which removes
      the prefix's first occurrence, at the very start: the key is what follows it. */
  lemma StripPrefix(name: string, key: string)
    ensures StartsWith(name, ValuePrefix) && name[|ValuePrefix|..] == key <==> name == ValuePrefix + key
  {
    if name == ValuePrefix + key {
      assert name[..|ValuePrefix|] == ValuePrefix;
    }
    if StartsWith(name, ValuePrefix) && name[|ValuePrefix|..] == key {
      assert name == name[..|ValuePrefix|] + name[|ValuePrefix|..];
    }
  }

  /** The payload the loop builds over `attributes`, in order: later writes win. */
  function Values(attributes: seq<Attribute>): (values: map<string, string>)
    ensures forall key :: key in values <==>
      exists i :: 0 <= i < |attributes| && attributes[i].name == ValuePrefix + key
    decreases |attributes|
  {
    if attributes == [] then map[]
    else
      var init, last := attributes[..|attributes| - 1], attributes[|attributes| - 1];
      var values := Values(init);
      assert forall i :: 0 <= i < |init| ==> init[i] == attributes[i];
      if StartsWith(last.name, ValuePrefix) then
        assert forall key :: last.name[|ValuePrefix|..] == key <==> last.name == ValuePrefix + key by {
          forall key { StripPrefix(last.name, key); }
        }
        values[last.name[|ValuePrefix|..] := last.value]
      else
        assert forall key :: last.name != ValuePrefix + key by {
          forall key ensures last.name != ValuePrefix + key { StripPrefix(last.name, key); }
        }
        values
  }

  /** Attribute names of an element are distinct. */
  predicate DistinctNames(attributes: seq<Attribute>) {
    forall i, j :: 0 <= i < j < |attributes| ==> attributes[i].name != attributes[j].name
  }

  /** Each key maps to the value of the attribute it came from. */
  lemma {:induction false} ValuesLookup(attributes: seq<Attribute>, i: nat, key: string)
    requires DistinctNames(attributes) && i < |attributes| && attributes[i].name == ValuePrefix + key
    ensures key in Values(attributes) && Values(attributes)[key] == attributes[i].value
    decreases |attributes|
  {
    var n := |attributes| - 1;
    var init := attributes[..n];
    StripPrefix(attributes[n].name, key);
    if i < n {
      assert init[i] == attributes[i];
      assert forall p, q :: 0 <= p < q < |init| ==> init[p] == attributes[p] && init[q] == attributes[q];
      ValuesLookup(init, i, key);
    }
  }

  class Hook {
    const el: seq<Attribute>
    const targets: EventTargets
    /** The pushed events, oldest first. */
    var pushed: seq<PushTo>
    var target: Option<string>
    var event: Option<string>
    var values: map<string, string>
    /** The click listener `mounted` registered. */
    var callback: Listener

    ghost predicate Valid()
      reads this, targets
    {
      targets.Valid()
    }

    /** `mounted`: reads the target and event, collects the payload and registers the
        click listener. */
    constructor Mounted(el: seq<Attribute>, targets: EventTargets)
      requires targets.Valid()
      modifies targets
      ensures Valid() && this.el == el && this.targets == targets && pushed == []
      ensures target == GetAttribute(el, "phx-target") && event == GetAttribute(el, "phx-event")
      ensures values == Values(el)
      ensures callback == Listener(Element("el"), "click", old(targets.nextCallback))
      ensures callback !in old(targets.listeners) && targets.listeners == old(targets.listeners) + {callback}
    {
      this.el := el;
      this.targets := targets;
      pushed := [];
      target := GetAttribute(el, "phx-target");
      event := GetAttribute(el, "phx-event");
      var values := CollectValues(el);
      this.values := values;
      new;
      callback := targets.AddEventListener(Element("el"), "click");
    }

    /** A `click` on the element: while the listener is registered, one push with
        default and propagation suppressed; once it is removed, nothing happens. */
    method Click(e: MouseEvent)
      modifies this`pushed, e
      ensures callback in targets.listeners ==>
        && pushed == old(pushed) + [PushTo(target, event, values)]
        && e.defaultPrevented && e.propagationStopped
      ensures callback !in targets.listeners ==>
        && pushed == old(pushed)
        && e.defaultPrevented == old(e.defaultPrevented) && e.propagationStopped == old(e.propagationStopped)
    {
      if callback in targets.listeners {
        e.defaultPrevented := true;
        e.propagationStopped := true;
        pushed := pushed + [PushTo(target, event, values)];
      }
    }

    /** `destroyed`: removes the click listener, and no other. */
    method Destroyed()
      requires Valid()
      modifies targets
      ensures Valid() && targets.listeners == old(targets.listeners) - {callback}
    {
      targets.RemoveEventListener(callback);
    }
  }

  /** The flags a handler can set on a click event. */
  class MouseEvent {
    var defaultPrevented: bool
    var propagationStopped: bool

    constructor ()
      ensures !defaultPrevented && !propagationStopped
    {
      defaultPrevented := false;
      propagationStopped := false;
    }
  }

  /** The `for ... of` loop of `mounted` over the element's attributes. */
  method CollectValues(attributes: seq<Attribute>) returns (values: map<string, string>)
    ensures values == Values(attributes)
  {
    values := map[];
    for k := 0 to |attributes|
      invariant values == Values(attributes[..k])
    {
      assert attributes[..k + 1][..k] == attributes[..k];
      var attribute := attributes[k];
      if StartsWith(attribute.name, ValuePrefix) {
        values := values[attribute.name[|ValuePrefix|..] := attribute.value];
      }
    }
    assert attributes[..|attributes|] == attributes;
  }

  /** Two clicks push the same event twice; after `destroyed` the listener is gone
      and a third click pushes nothing. */
  method ClickTwiceThenDestroy(el: seq<Attribute>) returns (pushed: seq<PushTo>, remaining: set<Listener>)
    ensures |pushed| == 2 && pushed[0] == pushed[1] && pushed[0].values == Values(el)
    ensures remaining == {}
  {
    var targets := new EventTargets();
    var hook := new Hook.Mounted(el, targets);
    var first := new MouseEvent();
    hook.Click(first);
    var second := new MouseEvent();
    hook.Click(second);
    hook.Destroyed();
    var third := new MouseEvent();
    hook.Click(third);
    pushed, remaining := hook.pushed, targets.listeners;
  }
}
