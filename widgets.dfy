/** The widget base `UI` and the flex box `UIBox`: their attribute
    defaults, the margin setters of the two front ends, handler
    registration and the destructor that deregisters a widget's handlers.

    Dafny classes do not inherit from classes, so a box holds the `UI` it
    is (`widget`); that object is also its identity in the event registry. */
module Widgets {
  import opened Geometry
  import opened Signals

  /** `UIAlign_type`. */
  datatype Align = Unset | Start | End | Center | Stretch

  /** `UIJustify_type`. */
  datatype Justify = Start | Center | End

  class UI {
    var margin: I4
    var flexGrow: int
    var alignSelf: Align
    var expandH: bool
    var expandV: bool
    /** `m_region`: the last allocated region. */
    var region: I4
    /** `cached_sr_valid`: one validity flag per dimension (width, height). */
    var cachedSrValid: seq<bool>

    /** `UI()`. `m_region` is not in the initialiser list, so the empty
        variadic constructor of `i4` zero-fills it. */
    constructor ()
      ensures margin == [0, 0, 0, 0] && flexGrow == 1 && alignSelf == Align.Unset
      ensures !expandH && !expandV
      ensures cachedSrValid == [false, false]
      ensures region == [0, 0, 0, 0]
    {
      margin := MakeI4([0, 0, 0, 0]);
      flexGrow := 1;
      alignSelf := Align.Unset;
      expandH, expandV := false, false;
      cachedSrValid := [false, false];
      region := MakeI4([]);
    }

    /** `set_margin_for_crt`: takes effect only in the console build
        (`tileLocal` false stands for `USE_TILE_LOCAL` undefined). */
    method SetMarginForCrt(m: I4, tileLocal: bool)
      modifies this`margin
      ensures margin == if tileLocal then old(margin) else m
    {
      if !tileLocal {
        margin := m;
      }
    }

    /** `set_margin_for_sdl`: takes effect only in the local tiles build. */
    method SetMarginForSdl(m: I4, tileLocal: bool)
      modifies this`margin
      ensures margin == if tileLocal then m else old(margin)
    {
      if tileLocal {
        margin := m;
      }
    }

    /** `UI::on(slot, cb)`: registers `cb` in `slot` under this widget. */
    method On<Event>(slot: Slot<UI, Event>, cb: Event -> bool)
      modifies slot
      ensures slot.entries == old(slot.entries) + [Entry(this, cb)]
      ensures Range(slot.entries, this) == Range(old(slot.entries), this) + [cb]
    {
      slot.On(this, cb);
    }

    /** `~UI()`: removes every handler registered under this widget from the
        registry (`UI::slots.event`) and leaves every other widget's
        handlers as they were. */
    method Destroy<Event>(slots: Slot<UI, Event>)
      modifies slots
      ensures slots.entries == Without(old(slots.entries), this)
      ensures Range(slots.entries, this) == []
      ensures forall w: UI :: w != this ==> Range(slots.entries, w) == Range(old(slots.entries), w)
    {
      slots.RemoveByTarget(this);
      forall w: UI | w != this
        ensures Range(slots.entries, w) == Range(old(slots.entries), w)
      {
        RangeAfterRemove(old(slots.entries), this, w);
      }
    }
  }

  /** A widget that has been destroyed never consumes an event again, while
      the events of every other widget are answered as before. */
  method DestroyedWidgetIgnoresEvents<Event>(slots: Slot<UI, Event>, w: UI, other: UI, e: Event)
    returns (consumedW: bool, consumedOther: bool)
    requires other != w
    modifies slots
    ensures !consumedW
    ensures consumedOther <==> Consumes(Range(old(slots.entries), other), e)
  {
    w.Destroy(slots);
    ghost var n: nat;
    consumedW, n := slots.Emit(w, e);
    consumedOther, n := slots.Emit(other, e);
  }

  class Box {
    /** The `UI` part of the box. */
    const widget: UI
    var horz: bool
    var justifyItems: Justify
    var alignItems: Align

    /** `UIBox()`: a column, packed from the start, that prefers to expand
        in both directions; the other `UI` defaults are kept. */
    constructor ()
      ensures fresh(widget)
      ensures widget.margin == [0, 0, 0, 0] && widget.flexGrow == 1 && widget.alignSelf == Align.Unset
      ensures widget.expandH && widget.expandV
      ensures widget.cachedSrValid == [false, false] && widget.region == [0, 0, 0, 0]
      ensures !horz && justifyItems == Justify.Start && alignItems == Align.Unset
    {
      var ui := new UI();
      ui.expandH, ui.expandV := true, true;
      widget := ui;
      horz := false;
      justifyItems := Justify.Start;
      alignItems := Align.Unset;
    }
  }
}
