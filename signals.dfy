/** The signal/slot registry `Slot<Target, bool (Args...)>`: a multimap from
    a target's identity to boolean handlers. A handler answers "consumed"
    (true) or "pass through" (false); handlers are modelled as pure
    functions of the event.

    The multimap is kept as the sequence of its (target, handler) pairs in
    registration order. `equal_range(t)` is the subsequence of the pairs
    whose target is `t`: a multimap inserts an equal key at the end of its
    range, so that subsequence is in registration order as well. */
module Signals {

  datatype Entry<Target, !Event> = Entry(target: Target, handler: Event -> bool)

  /** `handlers.equal_range(t)`: the handlers registered for `t`, oldest first. */
  function Range<Target(==), Event>(es: seq<Entry<Target, Event>>, t: Target): (hs: seq<Event -> bool>)
    ensures |hs| <= |es|
  {
    if es == [] then []
    else
      var n := |es| - 1;
      Range(es[..n], t) + (if es[n].target == t then [es[n].handler] else [])
  }

  /** Where in the registry each handler of `Range(es, t)` stands: the
      range is exactly the entries for `t`, in registration order, and no
      entry of another target. */
  ghost function Positions<Target, Event>(es: seq<Entry<Target, Event>>, t: Target): (p: seq<nat>)
    ensures |p| == |Range(es, t)|
    ensures forall k :: 0 <= k < |p| ==> p[k] < |es| && es[p[k]] == Entry(t, Range(es, t)[k])
    ensures forall k, l :: 0 <= k < l < |p| ==> p[k] < p[l]
    ensures forall j :: 0 <= j < |es| && es[j].target == t ==> j in p
  {
    if es == [] then []
    else
      var n := |es| - 1;
      var front := es[..n];
      var p := Positions(front, t) + (if es[n].target == t then [n] else []);
      assert forall k :: 0 <= k < |Positions(front, t)| ==> es[p[k]] == front[p[k]];
      p
  }

  /** `handlers.erase(t)`: every entry except those for `t`, order kept. */
  function Without<Target(==), Event>(es: seq<Entry<Target, Event>>, t: Target): (r: seq<Entry<Target, Event>>)
    ensures |r| <= |es|
    ensures forall i :: 0 <= i < |r| ==> r[i].target != t
    ensures forall i :: 0 <= i < |r| ==> r[i] in es
  {
    if es == [] then []
    else
      var n := |es| - 1;
      Without(es[..n], t) + (if es[n].target == t then [] else [es[n]])
  }

  /** Some handler of `hs` consumes `e`. */
  ghost predicate Consumes<Event>(hs: seq<Event -> bool>, e: Event) {
    exists i :: 0 <= i < |hs| && hs[i](e)
  }

  /** `on(u, h)` appends `h` to the range of `u` and leaves every other
      target's range as it was. */
  lemma RangeAfterOn<Target, Event>(es: seq<Entry<Target, Event>>, u: Target, h: Event -> bool, t: Target)
    ensures Range(es + [Entry(u, h)], t) == if u == t then Range(es, t) + [h] else Range(es, t)
  {
    assert (es + [Entry(u, h)])[..|es|] == es;
  }

  /** `remove_by_target(u)` empties the range of `u` and leaves every other
      target's range as it was. */
  lemma {:induction false} RangeAfterRemove<Target, Event>(es: seq<Entry<Target, Event>>, u: Target, t: Target)
    ensures Range(Without(es, u), t) == if u == t then [] else Range(es, t)
  {
    if es != [] {
      var n := |es| - 1;
      RangeAfterRemove(es[..n], u, t);
      var w := Without(es[..n], u);
      if es[n].target == u {
        assert Without(es, u) == w;
      } else {
        assert Without(es, u) == w + [es[n]];
        RangeAfterOn(w, es[n].target, es[n].handler, t);
      }
    }
  }

  /** `remove_by_target(u)` drops exactly the entries for `u`: every other
      entry is still there. */
  lemma {:induction false} WithoutKeepsOthers<Target, Event>(es: seq<Entry<Target, Event>>, u: Target, j: nat)
    requires j < |es| && es[j].target != u
    ensures es[j] in Without(es, u)
  {
    var n := |es| - 1;
    if j < n {
      WithoutKeepsOthers(es[..n], u, j);
    }
  }

  /** After `on(t, h)`, an event is consumed by `t`'s handlers iff it was
      consumed before or `h` consumes it. */
  lemma ConsumesAfterOn<Target, Event>(es: seq<Entry<Target, Event>>, t: Target, h: Event -> bool, e: Event)
    ensures Consumes(Range(es + [Entry(t, h)], t), e) <==> Consumes(Range(es, t), e) || h(e)
  {
    RangeAfterOn(es, t, h, t);
    var hs := Range(es, t);
    if Consumes(hs + [h], e) {
      var i :| 0 <= i < |hs + [h]| && (hs + [h])[i](e);
      if i < |hs| {
        assert hs[i](e);
      }
    }
    if Consumes(hs, e) {
      var i :| 0 <= i < |hs| && hs[i](e);
      assert (hs + [h])[i](e);
    }
    if h(e) {
      assert (hs + [h])[|hs|](e);
    }
  }

  /** Once `t` is removed, no event is consumed on its behalf. */
  lemma NothingConsumedAfterRemove<Target, Event>(es: seq<Entry<Target, Event>>, t: Target, e: Event)
    ensures !Consumes(Range(Without(es, t), t), e)
  {
    RangeAfterRemove(es, t, t);
  }

  class Slot<Target(==), Event> {
    /** The `handlers` multimap, in registration order. */
    var entries: seq<Entry<Target, Event>>

    constructor ()
      ensures entries == []
    {
      entries := [];
    }

    /** `emit(t, e)`: offers `e` to `t`'s handlers in registration order and
        stops at the first that consumes it. `invoked` counts the handlers
        called: every one before the last answered false, and the last
        answered true exactly when the event was consumed. */
    method Emit(t: Target, e: Event) returns (consumed: bool, ghost invoked: nat)
      ensures consumed <==> Consumes(Range(entries, t), e)
      ensures invoked <= |Range(entries, t)|
      ensures forall i :: 0 <= i < invoked - 1 ==> !Range(entries, t)[i](e)
      ensures consumed ==> 0 < invoked && Range(entries, t)[invoked - 1](e)
      ensures !consumed ==> invoked == |Range(entries, t)|
    {
      var hs := Range(entries, t);
      var i := 0;
      invoked := 0;
      while i < |hs|
        invariant i <= |hs|
        invariant invoked == i
        invariant forall k :: 0 <= k < i ==> !hs[k](e)
      {
        invoked := i + 1;
        if hs[i](e) {
          consumed := true;
          return;
        }
        i := i + 1;
      }
      consumed := false;
    }

    /** `on(t, h)`: registers `h` for `t` after every existing entry. */
    method On(t: Target, h: Event -> bool)
      modifies this
      ensures entries == old(entries) + [Entry(t, h)]
      ensures Range(entries, t) == Range(old(entries), t) + [h]
    {
      RangeAfterOn(entries, t, h, t);
      entries := entries + [Entry(t, h)];
    }

    /** `remove_by_target(t)`: erases every entry for `t`. */
    method RemoveByTarget(t: Target)
      modifies this
      ensures entries == Without(old(entries), t)
      ensures Range(entries, t) == []
    {
      RangeAfterRemove(entries, t, t);
      entries := Without(entries, t);
    }
  }
}
