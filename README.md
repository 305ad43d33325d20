# Crawl's hierarchical layout system: the logic in `ui.h`

This project models the parts of Dungeon Crawl Stone Soup's layout engine
whose bodies are in the header `crawl-ref/source/ui.h`:

- **Geometry** (`geometry.dfy`): the integer tuples `i4` (margins and
  regions) and `i2` (sizes), their variadic constructors, which zero-fill
  the components not given, and their component-wise `==` / `!=`. The
  header builds `==` on `std::equal`. `EqualFrom` models that call and is
  proved to mean sequence equality. `UISizeReq` is a datatype.
- **Signals** (`signals.dfy`): the event-handler registry `Slot`. It is a
  multimap from a target widget's identity to handlers that return
  "consumed" or "pass through". The multimap is a sequence of
  (target, handler) entries in registration order. `Range(entries, t)` is
  `equal_range(t)`: `t`'s handlers in the order they were registered.
  - `Emit` walks that range and stops at the first handler that consumes
    the event.
  - `On` appends an entry.
  - `RemoveByTarget` erases every entry for a target.
  - Lemmas show that each operation touches only the named target's range.
  - `Positions` shows that the range is exactly that target's entries, in
    registration order.
- **Widgets** (`widgets.dfy`): the defaults set by the `UI` and `UIBox`
  constructors, and the two front-end margin setters. The compile-time
  switch `USE_TILE_LOCAL` becomes a boolean parameter. `UI::on` registers
  a handler under the widget. The destructor becomes `Destroy`: it
  deregisters the widget from the event registry and leaves every other
  widget's handlers alone.
- **Grid tracks** (`grid.dfy`): the `track_info` record, reading and
  assigning a weight through `track_flex_grow`, and the spanned-cell
  rectangle `get_tracks_region`. When offsets are running sums of sizes,
  a child spanning `w` columns gets exactly the sum of their sizes.

Dafny classes do not inherit from classes. `Box` and `Grid` therefore hold
their `UI` part as a `const widget: UI`, and that object is their identity
in the registry. `UI::slots.event` is a process-wide static in the source.
Here it is a `Slot` object passed to the members that use it.

## Model

| member | source | states |
|---|---|---|
| `Geometry.Fill` | crawl-ref/source/ui.h:21 | aggregate initialisation `xyzw{l...}` keeps the given values in order and zero-fills the rest |
| `Geometry.MakeI4` | crawl-ref/source/ui.h:19-21 | `i4(l...)` has component `i` equal to `l[i]` for the given values and 0 after them |
| `Geometry.MakeI2` | crawl-ref/source/ui.h:28-30 | `i2(l...)` has component `i` equal to `l[i]` for the given values and 0 after them |
| `Geometry.EqualFrom` | crawl-ref/source/ui.h:24 | the element-by-element comparison of `std::equal` (stops at the first mismatch) holds iff the two suffixes are equal |
| `Geometry.I4Equal` | crawl-ref/source/ui.h:24 | `i4 == i4` holds iff every component is equal, iff the tuples are equal |
| `Geometry.I4NotEqual` | crawl-ref/source/ui.h:25 | `i4 != i4` is the negation of `==`: some component differs |
| `Geometry.I2Equal` | crawl-ref/source/ui.h:33 | `i2 == i2` holds iff both components are equal |
| `Geometry.I2NotEqual` | crawl-ref/source/ui.h:34 | `i2 != i2` is the negation of `==`: some component differs |
| `Signals.Range` | crawl-ref/source/ui.h:66 | `equal_range(t)` never holds more handlers than the registry has entries |
| `Signals.Positions` | crawl-ref/source/ui.h:63-67 | `equal_range(t)` is exactly the entries registered for `t`: each comes from an entry for `t`, they are in registration order, and no entry for `t` is missed |
| `Signals.Without` | crawl-ref/source/ui.h:80-83 | `erase(t)` leaves no entry for `t`, and every entry left was in the registry before |
| `Signals.RangeAfterOn` | crawl-ref/source/ui.h:75-79 | after `on(u, h)`, `u`'s handlers are the old ones followed by `h`; every other target's handlers are unchanged |
| `Signals.RangeAfterRemove` | crawl-ref/source/ui.h:80-83 | after `remove_by_target(u)`, `u` has no handlers; every other target's handlers are unchanged, in order |
| `Signals.WithoutKeepsOthers` | crawl-ref/source/ui.h:80-83 | `remove_by_target(u)` keeps every entry whose target is not `u` |
| `Signals.ConsumesAfterOn` | crawl-ref/source/ui.h:64-79 | after `on(t, h)`, `t` consumes an event iff it consumed it before or `h` consumes it |
| `Signals.NothingConsumedAfterRemove` | crawl-ref/source/ui.h:64-83 | after `remove_by_target(t)`, no event is consumed for `t` |
| `Signals.Slot.constructor` | crawl-ref/source/ui.h:84-85 | a new registry has no handlers |
| `Signals.Slot.Emit` | crawl-ref/source/ui.h:64-74 | returns true iff some handler registered for `t` consumes the event. Only `t`'s handlers are called, oldest first. Every handler called before the last answered false. The last answered true exactly when the result is true. With no handler, the result is false |
| `Signals.Slot.On` | crawl-ref/source/ui.h:75-79 | adds exactly one entry `(t, h)` after all existing ones, so `h` runs after `t`'s earlier handlers |
| `Signals.Slot.RemoveByTarget` | crawl-ref/source/ui.h:80-83 | the registry becomes the old one without `t`'s entries, and `t` has no handlers |
| `Widgets.UI.constructor` | crawl-ref/source/ui.h:91 | a fresh widget has zero margin, flex-grow 1, unset self-alignment, no expansion, both cached size requests invalid and a zero region |
| `Widgets.UI.SetMarginForCrt` | crawl-ref/source/ui.h:114-119 | sets the margin in the console build only; the tiles build keeps the old margin |
| `Widgets.UI.SetMarginForSdl` | crawl-ref/source/ui.h:120-125 | sets the margin in the local tiles build only |
| `Widgets.UI.On` | crawl-ref/source/ui.h:129-133 | registers the callback under this widget, after the widget's earlier handlers |
| `Widgets.UI.Destroy` | crawl-ref/source/ui.h:92-94 | the destructor removes every handler of this widget from the registry and leaves every other widget's handlers unchanged |
| `Widgets.DestroyedWidgetIgnoresEvents` | crawl-ref/source/ui.h:92-94 | after destruction, emitting to the widget returns false, and emitting to any other widget returns what it would have before |
| `Widgets.Box.constructor` | crawl-ref/source/ui.h:228-230 | a fresh box expands both ways, is a column (`horz` false), justifies from the start and has no item alignment; the other `UI` defaults (zero margin, flex-grow 1, unset alignment, both cache flags invalid, zero region) are kept |
| `GridLayout.SelectTrack` | crawl-ref/source/ui.h:323 | the accessor's choice: for a selector in the `-1` convention it designates row `y` when `x` is -1 and column `x` when `y` is -1; both accessor methods select through it |
| `GridLayout.AssertAdmitsNoTrack` | crawl-ref/source/ui.h:322-323 | the assertion as written admits `(-1, -1)`, which selects row -1 |
| `GridLayout.TrackSelectorSelectsOne` | crawl-ref/source/ui.h:322-323 | the intended selector equals the asserted one plus a non-negative track index |
| `GridLayout.OffsetDistance` | crawl-ref/source/ui.h:340-347 | when offsets are running sums, the distance between two tracks' offsets is the total size of the tracks between them |
| `GridLayout.TracksRegion` | crawl-ref/source/ui.h:331-338 | the region starts at the first spanned column's and row's offsets; a one-track span has exactly that track's size |
| `GridLayout.SpanExtent` | crawl-ref/source/ui.h:335-336 | when offsets are running sums, a span's extent (last size + last offset − first offset) is the sum of the spanned sizes; an empty span has extent 0 |
| `GridLayout.TracksRegionCoversSpan` | crawl-ref/source/ui.h:331-338 | when offsets are running sums, a child spanning `w` columns and `h` rows gets exactly the total size of those columns and rows, with no gap |
| `GridLayout.WeightChangeKeepsRegions` | crawl-ref/source/ui.h:319-345 | assigning a column's or a row's weight keeps that dimension's offsets as running sums and leaves every spanned region as it was |
| `GridLayout.Grid.constructor` | crawl-ref/source/ui.h:316 | a fresh grid has the `UI` defaults (zero margin, flex-grow 1, unset alignment, no expansion, both cache flags invalid, zero region), no tracks and clean track info |
| `GridLayout.Grid.TrackFlexGrow` | crawl-ref/source/ui.h:319-324 | returns column `x`'s weight when `y == -1`, and row `y`'s weight when `x == -1` |
| `GridLayout.Grid.SetTrackFlexGrow` | crawl-ref/source/ui.h:319-324 | assigning through the returned reference changes only the selected track's weight; every other track and field is kept |
| `GridLayout.FlexGrowReadAfterWrite` | crawl-ref/source/ui.h:319-324 | reading a track's weight after assigning `g` through `track_flex_grow` yields `g` |

## Left out

- `GridLayout.Grid.TrackFlexGrow`: does not model the call to `init_track_info()` that comes first. That function's body is not in `ui.h`, so the tracks are taken as already initialised and the selected track must exist.
- `GridLayout.Grid.SetTrackFlexGrow`: does not set `m_track_info_dirty`. Nothing in `ui.h` does that on this path.
- `GridLayout.TracksRegionCoversSpan`: takes running offsets as a hypothesis. `set_track_offsets`, which establishes them, is not part of this model.
- The layout algorithms have their bodies outside `ui.h`, so any model of them would be invented. These are `layout_main_axis`, `layout_cross_axis`, `layout_track`, `set_track_offsets`, `compute_track_sizereqs`, `init_track_info`, `get_preferred_size` with its caching, `allocate_region` and `wrap_text_to_size`.
- The widgets' `_render`, `_get_preferred_size`, `_allocate_region` and `on_event` overrides are declared but not defined here.
- `UIBox::add_child`, `UIGrid::add_child`, `UIStack::add_child` and `pop_child` are declared only. `UIStack::num_children`, `get_child` and `UIBin::get_child` are plain accessors of child storage that is not modelled.
- The container iterators (`iter_impl`, `iter_impl_vec`, `iter_impl_grid`) are C++ plumbing for type-erased iteration. They specify no layout behaviour.
- `UIText`, `UIImage` and their constructors depend on the font, tile and texture back ends (`formatted_string`, `tile_def`, `GenericTexture`). These are foreign libraries.
- `ui_push_layout`, `ui_pop_layout`, `ui_pump_events`, `ui_resize` and the scissor functions are only declared in `ui.h`.
- `get_region` returns the `m_region` field unchanged. The field is modelled as `UI.region`.
- Handlers are `std::function`s and may have side effects. Here they are pure functions of the event, and `Emit` takes one event argument in place of the parameter pack.
- A multimap orders different keys by pointer value. The model keeps all entries in registration order. No member of `Slot` exposes the order between different keys, and within one key the two orders agree.
- `Signals.Slot.Emit`: does not state how the ghost count `invoked` corresponds to the calls of real, effectful handlers. It only describes the handlers as pure functions.
- Integer width is not modelled. The source's `int` fields are 32-bit, and signed overflow there is undefined behaviour. This covers the `i4` components, `flex_grow`, `track_info.size` and `offset`, and the arithmetic in `get_tracks_region`. The model uses unbounded integers. So `GridLayout.TracksRegionCoversSpan` (extent equals the sum of the spanned sizes) carries over to the source only when no offset, size or partial sum leaves the 32-bit range.
- `emit` passes `forward<Args>(args)...` to every handler inside its loop. The model gives every handler the same event value. That matches the source for an argument type whose copy or move leaves the value unchanged, which is assumed for `wm_event` (its definition is not part of this model). For a `Slot` whose argument type has a state-changing move, later handlers would see a moved-from value. The generic `Signals.Slot` does not capture that.
- `cached_sr` and `cached_sr_pw` are left uninitialised by the constructor and are used only by the size cache, which is left out. Only the validity flags are modelled.

## Findings

| source | as written | input that shows it | evidently intended | confidence | as-written member | corrected member |
|---|---|---|---|---|---|---|
| crawl-ref/source/ui.h:322-323 | `ASSERT(x == -1 \|\| y == -1)` lets a selector through when it names no track | `track_flex_grow(-1, -1)` (also `(-5, -1)`) passes the assertion and then reads `m_row_info[-1]` | the assertion rejects every selector except exactly one of `x`, `y` being -1 with the other a track index | medium; not executed | `GridLayout.AssertAdmitsNoTrack` | `GridLayout.TrackSelectorSelectsOne` |

`Grid.TrackFlexGrow` and `Grid.SetTrackFlexGrow` require the intended
selector (`TrackSelector`). `TrackSelectorSelectsOne` shows this is the
asserted guard plus a non-negative index. Callers must meet that anyway,
because an out-of-range read is undefined behaviour.
