/** The attribute-keeping hook of assets/js/hooks/maintainAttrs.js.

    Some attributes of an element are changed on the client (an open `<details>`, an
    inline style) and a server render would reset them. The element lists them in
    `data-attrs`, separated by ", "; the hook records their values before each
    update and writes them back after it. */
module MaintainAttrs {
  import opened Wrappers
  import opened Js
  import opened Browser

  const Separator: string := ", "

  /** `attrs()`: the names listed in `data-attrs`. */
  function Attrs(dataAttrs: string): (names: seq<string>)
    ensures |names| >= 1
  {
    Split(dataAttrs, Separator)
  }

  /** The listed names, joined back with the separator, are the attribute's text. */
  lemma AttrsJoin(dataAttrs: string)
    ensures Join(Attrs(dataAttrs), Separator) == dataAttrs
  {
    JoinSplit(dataAttrs, Separator);
  }

  /** `getAttribute(name)`: null when the attribute is absent. */
  function Lookup(attributes: map<string, string>, name: string): (v: Option<string>)
    ensures v.Some? <==> name in attributes
    ensures v.Some? ==> v.value == attributes[name]
  {
    if name in attributes then Some(attributes[name]) else None
  }

  /** What `setAttribute(name, v)` stores: a null value is written as the text "null". */
  function Written(v: Option<string>): string {
    v.GetOr("null")
  }

  /** `beforeUpdate`'s map: one (name, value) pair per listed name, in list order. */
  function Record(names: seq<string>, attributes: map<string, string>): (pairs: seq<(string, Option<string>)>)
    ensures |pairs| == |names|
    ensures forall i :: 0 <= i < |names| ==> pairs[i] == (names[i], Lookup(attributes, names[i]))
    decreases |names|
  {
    if names == [] then []
    else
      var last := names[|names| - 1];
      Record(names[..|names| - 1], attributes) + [(last, Lookup(attributes, last))]
  }

  /** `updated`'s writes, in order, on the attributes: a later pair for the same name
      overwrites an earlier one. */
  function Restore(attributes: map<string, string>, pairs: seq<(string, Option<string>)>): map<string, string>
    decreases |pairs|
  {
    if pairs == [] then attributes
    else
      var last := pairs[|pairs| - 1];
      Restore(attributes, pairs[..|pairs| - 1])[last.0 := Written(last.1)]
  }

  /** An attribute no pair names is neither added, removed nor changed. */
  lemma {:induction false} RestoreKeepsOthers(attributes: map<string, string>, pairs: seq<(string, Option<string>)>, name: string)
    requires forall i :: 0 <= i < |pairs| ==> pairs[i].0 != name
    ensures name in Restore(attributes, pairs) <==> name in attributes
    ensures name in attributes ==> Restore(attributes, pairs)[name] == attributes[name]
    decreases |pairs|
  {
    if pairs != [] {
      RestoreKeepsOthers(attributes, pairs[..|pairs| - 1], name);
    }
  }

  /** After the writes, every listed attribute holds what it held when it was recorded
      (the text "null" when it was absent). */
  lemma {:induction false} RestoreRecorded(attributes: map<string, string>, names: seq<string>, before: map<string, string>, name: string)
    requires name in names
    ensures var restored := Restore(attributes, Record(names, before));
      name in restored && restored[name] == Written(Lookup(before, name))
    decreases |names|
  {
    var init := names[..|names| - 1];
    var pairs := Record(names, before);
    assert pairs[..|pairs| - 1] == Record(init, before);
    if names[|names| - 1] != name {
      assert name in init by {
        var i :| 0 <= i < |names| && names[i] == name;
        assert init[i] == name;
      }
      RestoreRecorded(attributes, init, before, name);
    }
  }

  /** A list of two names without commas splits into those two names. */
  lemma AttrsOfTwo(a: string, b: string)
    requires ',' !in a && ',' !in b
    ensures Attrs(a + Separator + b) == [a, b]
  {
    SplitAfterFirst(a, Separator, b);
    SplitWithout(b, Separator);
  }

  class Hook {
    const el: HtmlElement
    /** The pairs recorded by the last `beforeUpdate`; undefined before the first. */
    var prevAttrs: Option<seq<(string, Option<string>)>>

    constructor Mounted(el: HtmlElement)
      ensures this.el == el && prevAttrs.None?
    {
      this.el := el;
      prevAttrs := None;
    }

    /** `beforeUpdate`: records the listed attributes. Without `data-attrs` the split
        throws and nothing is recorded. */
    method BeforeUpdate()
      modifies this`prevAttrs
      ensures "data-attrs" in el.attributes ==>
        prevAttrs == Some(Record(Attrs(el.attributes["data-attrs"]), el.attributes))
      ensures "data-attrs" !in el.attributes ==> prevAttrs == old(prevAttrs)
    {
      if "data-attrs" in el.attributes {
        prevAttrs := Some(Record(Attrs(el.attributes["data-attrs"]), el.attributes));
      }
    }

    /** `updated`: writes every recorded pair back, in order. Before any record the
        `forEach` throws and nothing is written. */
    method Updated()
      modifies el
      ensures el.attributes == if prevAttrs.Some? then Restore(old(el.attributes), prevAttrs.value) else old(el.attributes)
    {
      if prevAttrs.Some? {
        var pairs := prevAttrs.value;
        for k := 0 to |pairs|
          invariant el.attributes == Restore(old(el.attributes), pairs[..k])
        {
          assert pairs[..k + 1][..k] == pairs[..k];
          el.attributes := el.attributes[pairs[k].0 := Written(pairs[k].1)];
        }
        assert pairs[..|pairs|] == pairs;
      }
    }
  }

  /** Two listed attributes across a render that drops the first and sets the second:
      the first comes back with its old value, the second, absent before the render,
      comes back as the text "null"; the render's other changes stay. */
  method KeepAcrossRender(a: string, b: string, value: string, rendered: string)
    returns (after: map<string, string>)
    requires ',' !in a && ',' !in b && a != b && a != "data-attrs" && b != "data-attrs"
    requires a != "class" && b != "class"
    ensures after == map["data-attrs" := a + Separator + b, "class" := "y", a := value, b := "null"]
  {
    var list := a + Separator + b;
    var el := new HtmlElement(map["data-attrs" := list, "class" := "x", a := value]);
    var hook := new Hook.Mounted(el);
    AttrsOfTwo(a, b);
    hook.BeforeUpdate();
    var pairs := [(a, Some(value)), (b, None)];
    ghost var before := el.attributes;
    assert b !in before;
    ghost var recorded := Record([a, b], before);
    assert recorded[0] == pairs[0] && recorded[1] == pairs[1];
    assert recorded == pairs;
    assert Attrs(before["data-attrs"]) == [a, b];
    var patched := map["data-attrs" := list, "class" := "y", b := rendered];
    el.attributes := patched;
    hook.Updated();
    assert pairs[..1][..0] == [] && pairs[..1] == [pairs[0]];
    assert Restore(patched, pairs[..1]) == patched[a := value];
    assert el.attributes == patched[a := value][b := "null"];
    after := el.attributes;
  }
}
