/** The change-event hook of assets/js/hooks/dispatch-value-change.js.

    The server may rewrite an input's `value` attribute; browsers fire no `change`
    event for that, so the hook watches attribute mutations and fires one itself,
    but only when the value really moved away from the last value it reported. */
module DispatchValueChange {

  /** One mutation record: its type and, for an attribute mutation, the attribute's name. */
  datatype Mutation = Mutation(kind: string, attributeName: string)

  /** A record that can trigger a dispatch: a mutation of the `value` attribute. */
  predicate IsValueMutation(m: Mutation) {
    m.kind == "attributes" && m.attributeName == "value"
  }

  /** Whether a batch holds a mutation of the `value` attribute. */
  predicate TouchesValue(mutations: seq<Mutation>) {
    exists i :: 0 <= i < |mutations| && IsValueMutation(mutations[i])
  }

  class Hook {
    /** The value last reported (the value at mount to begin with). */
    var previousValue: string
    /** The values for which a bubbling `change` event was dispatched, oldest first. */
    var dispatched: seq<string>
    /** Whether the mutation observer is connected. */
    var observing: bool

    /** `mounted`: remember the element's value and start observing its attributes. */
    constructor Mounted(value: string)
      ensures previousValue == value && dispatched == [] && observing
    {
      previousValue := value;
      dispatched := [];
      observing := true;
    }

    /** `destroyed`: disconnect the observer; no batch reaches the hook afterwards. */
    method Destroyed()
      modifies this`observing
      ensures !observing
    {
      observing := false;
    }

    /** The observer callback on one batch of mutations, the element holding `value`
        while it runs: at most one event per batch, and only when the batch touched
        the `value` attribute and the value differs from the one last reported.
        A disconnected observer delivers nothing. */
    method Observe(mutations: seq<Mutation>, value: string)
      modifies this`previousValue, this`dispatched
      ensures observing && TouchesValue(mutations) && value != old(previousValue) ==>
        dispatched == old(dispatched) + [value] && previousValue == value
      ensures !(observing && TouchesValue(mutations) && value != old(previousValue)) ==>
        dispatched == old(dispatched) && previousValue == old(previousValue)
    {
      if !observing {
        return;
      }
      for k := 0 to |mutations|
        invariant TouchesValue(mutations[..k]) && value != old(previousValue) ==>
          dispatched == old(dispatched) + [value] && previousValue == value
        invariant !(TouchesValue(mutations[..k]) && value != old(previousValue)) ==>
          dispatched == old(dispatched) && previousValue == old(previousValue)
      {
        assert forall i :: 0 <= i < k ==> mutations[..k + 1][i] == mutations[..k][i];
        assert mutations[..k + 1][k] == mutations[k];
        if IsValueMutation(mutations[k]) && value != previousValue {
          previousValue := value;
          dispatched := dispatched + [value];
        }
      }
      assert mutations[..|mutations|] == mutations;
    }
  }

  /** Three writes of the same new value, with a class change among them, give one
      event; a later batch with the same value gives none; a class change alone never
      gives one. */
  method RepeatedWrites() returns (dispatched: seq<string>)
    ensures dispatched == ["b"]
  {
    var hook := new Hook.Mounted("a");
    var write := Mutation("attributes", "value");
    var restyle := Mutation("attributes", "class");
    var batch := [write, restyle, write, write];
    assert IsValueMutation(batch[0]);
    hook.Observe(batch, "b");
    hook.Observe([write], "b");
    assert !TouchesValue([restyle]);
    hook.Observe([restyle], "c");
    hook.Destroyed();
    hook.Observe([write], "d");
    dispatched := hook.dispatched;
  }
}
