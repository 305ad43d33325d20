/** The grid widget `UIGrid`: its per-row and per-column `track_info`
    records, the accessor `track_flex_grow` for one track's weight, and
    `get_tracks_region`, the rectangle a child spanning several tracks
    occupies. */
module GridLayout {
  import opened Geometry
  import Widgets

  /** `track_info`: one row or column of the grid. */
  datatype TrackInfo = TrackInfo(size: int, offset: int, sr: SizeReq, flexGrow: int)

  /** Which track `track_flex_grow(x, y)` designates. */
  datatype Track = Col(index: int) | Row(index: int)

  /** The choice `x >= 0 ? m_col_info[x] : m_row_info[y]`. Given a
      selector in the `-1` convention, it designates the row when `x` is -1
      and the column when `y` is -1. */
  function SelectTrack(x: int, y: int): (t: Track)
    ensures TrackSelector(x, y) ==> t == if x == -1 then Row(y) else Col(x)
  {
    if x >= 0 then Col(x) else Row(y)
  }

  /** The guard `ASSERT(x == -1 || y == -1)` as written. */
  predicate AssertedSelector(x: int, y: int) {
    x == -1 || y == -1
  }

  /** The guard as written lets `(-1, -1)` through, and the accessor then
      reads the row at index -1, which does not exist. */
  lemma AssertAdmitsNoTrack()
    ensures AssertedSelector(-1, -1) && SelectTrack(-1, -1) == Row(-1)
  {
  }

  /** The intended guard: exactly one of `x` and `y` is -1 and the other
      selects a track. */
  predicate TrackSelector(x: int, y: int) {
    (x == -1 && y >= 0) || (y == -1 && x >= 0)
  }

  /** The intended guard is the asserted one restricted to the selectors
      that name a track at a non-negative index. */
  lemma TrackSelectorSelectsOne(x: int, y: int)
    ensures TrackSelector(x, y) <==> AssertedSelector(x, y) && SelectTrack(x, y).index >= 0
  {
  }

  /** Track offsets are running sums of sizes: `offset[i] == offset[i - 1] + size[i - 1]`. */
  ghost predicate RunningOffsets(ts: seq<TrackInfo>) {
    forall i :: 0 < i < |ts| ==> ts[i].offset == ts[i - 1].offset + ts[i - 1].size
  }

  /** The total size of a run of tracks. */
  ghost function SumSizes(ts: seq<TrackInfo>): int {
    if ts == [] then 0 else SumSizes(ts[..|ts| - 1]) + ts[|ts| - 1].size
  }

  /** With running offsets, the distance between two tracks' offsets is the
      total size of the tracks between them. */
  lemma {:induction false} OffsetDistance(ts: seq<TrackInfo>, i: nat, j: nat)
    requires RunningOffsets(ts) && i <= j < |ts|
    ensures ts[j].offset - ts[i].offset == SumSizes(ts[i..j])
  {
    if i < j {
      OffsetDistance(ts, i, j - 1);
      assert ts[i..j][..j - 1 - i] == ts[i..j - 1];
    }
  }

  /** `get_tracks_region(x, y, w, h)`: origin of the first spanned column and
      row, extent from there to the far edge of the last spanned ones. The
      four indices read must exist. */
  function TracksRegion(cols: seq<TrackInfo>, rows: seq<TrackInfo>, x: int, y: int, w: int, h: int): (r: I4)
    requires 0 <= x < |cols| && 0 <= x + w - 1 < |cols|
    requires 0 <= y < |rows| && 0 <= y + h - 1 < |rows|
    ensures r[0] == cols[x].offset && r[1] == rows[y].offset
    ensures w == 1 ==> r[2] == cols[x].size
    ensures h == 1 ==> r[3] == rows[y].size
  {
    [ cols[x].offset, rows[y].offset,
      cols[x + w - 1].size + cols[x + w - 1].offset - cols[x].offset,
      rows[y + h - 1].size + rows[y + h - 1].offset - rows[y].offset ]
  }

  /** With running offsets, one dimension's extent is the total size of the
      spanned tracks; an empty span has extent 0. */
  lemma SpanExtent(ts: seq<TrackInfo>, x: int, w: int)
    requires RunningOffsets(ts) && 0 <= x < |ts| && 0 <= x + w - 1 < |ts| && w >= 0
    ensures ts[x + w - 1].size + ts[x + w - 1].offset - ts[x].offset == SumSizes(ts[x..x + w])
  {
    if w == 0 {
      assert ts[x].offset == ts[x - 1].offset + ts[x - 1].size;
    } else {
      OffsetDistance(ts, x, x + w - 1);
      assert ts[x..x + w][..w - 1] == ts[x..x + w - 1];
    }
  }

  /** A child spanning `w` columns and `h` rows is given exactly the total
      size of those columns and rows, whatever their weights. */
  lemma TracksRegionCoversSpan(cols: seq<TrackInfo>, rows: seq<TrackInfo>, x: int, y: int, w: int, h: int)
    requires RunningOffsets(cols) && RunningOffsets(rows)
    requires 0 <= x < |cols| && 0 <= x + w - 1 < |cols| && w >= 0
    requires 0 <= y < |rows| && 0 <= y + h - 1 < |rows| && h >= 0
    ensures TracksRegion(cols, rows, x, y, w, h)[2] == SumSizes(cols[x..x + w])
    ensures TracksRegion(cols, rows, x, y, w, h)[3] == SumSizes(rows[y..y + h])
  {
    SpanExtent(cols, x, w);
    SpanExtent(rows, y, h);
  }

  /** Changing a column's or a row's weight moves nothing: offsets stay
      running sums and every spanned region is the same until the tracks
      are laid out again. */
  lemma WeightChangeKeepsRegions(cols: seq<TrackInfo>, rows: seq<TrackInfo>, i: nat, g: int, x: int, y: int, w: int, h: int)
    requires 0 <= x < |cols| && 0 <= x + w - 1 < |cols|
    requires 0 <= y < |rows| && 0 <= y + h - 1 < |rows|
    ensures i < |cols| ==> (RunningOffsets(cols) ==> RunningOffsets(cols[i := cols[i].(flexGrow := g)]))
    ensures i < |cols| ==> TracksRegion(cols[i := cols[i].(flexGrow := g)], rows, x, y, w, h) == TracksRegion(cols, rows, x, y, w, h)
    ensures i < |rows| ==> (RunningOffsets(rows) ==> RunningOffsets(rows[i := rows[i].(flexGrow := g)]))
    ensures i < |rows| ==> TracksRegion(cols, rows[i := rows[i].(flexGrow := g)], x, y, w, h) == TracksRegion(cols, rows, x, y, w, h)
  {
  }

  class Grid {
    /** The `UI` part of the grid. */
    const widget: Widgets.UI
    var colInfo: seq<TrackInfo>
    var rowInfo: seq<TrackInfo>
    var trackInfoDirty: bool

    /** `UIGrid()`: the `UI` defaults, no tracks yet, track info not dirty. */
    constructor ()
      ensures fresh(widget)
      ensures widget.margin == [0, 0, 0, 0] && widget.flexGrow == 1 && widget.alignSelf == Widgets.Align.Unset
      ensures !widget.expandH && !widget.expandV
      ensures widget.cachedSrValid == [false, false] && widget.region == [0, 0, 0, 0]
      ensures colInfo == [] && rowInfo == [] && !trackInfoDirty
    {
      widget := new Widgets.UI();
      colInfo, rowInfo := [], [];
      trackInfoDirty := false;
    }

    /** The selected track exists. */
    predicate HasTrack(x: int, y: int)
      reads this
    {
      if x >= 0 then x < |colInfo| else 0 <= y < |rowInfo|
    }

    /** Reading `track_flex_grow(x, y)`: the weight of column `x` when a
        column is selected, of row `y` when a row is. */
    method TrackFlexGrow(x: int, y: int) returns (g: int)
      requires TrackSelector(x, y) && HasTrack(x, y)
      ensures y == -1 ==> g == colInfo[x].flexGrow
      ensures x == -1 ==> g == rowInfo[y].flexGrow
    {
      match SelectTrack(x, y)
      case Col(i) => g := colInfo[i].flexGrow;
      case Row(i) => g := rowInfo[i].flexGrow;
    }

    /** Assigning through `track_flex_grow(x, y)`: sets the weight of exactly
        that track; every other field of every track is kept. */
    method SetTrackFlexGrow(x: int, y: int, g: int)
      requires TrackSelector(x, y) && HasTrack(x, y)
      modifies this`colInfo, this`rowInfo
      ensures y == -1 ==> colInfo == old(colInfo)[x := old(colInfo)[x].(flexGrow := g)] && rowInfo == old(rowInfo)
      ensures x == -1 ==> rowInfo == old(rowInfo)[y := old(rowInfo)[y].(flexGrow := g)] && colInfo == old(colInfo)
    {
      match SelectTrack(x, y)
      case Col(i) => colInfo := colInfo[i := colInfo[i].(flexGrow := g)];
      case Row(i) => rowInfo := rowInfo[i := rowInfo[i].(flexGrow := g)];
    }
  }

  /** Reading `track_flex_grow(x, y)` after assigning `g` through it yields `g`. */
  method FlexGrowReadAfterWrite(grid: Grid, x: int, y: int, g: int) returns (read: int)
    requires TrackSelector(x, y) && grid.HasTrack(x, y)
    modifies grid
    ensures read == g
  {
    grid.SetTrackFlexGrow(x, y, g);
    read := grid.TrackFlexGrow(x, y);
  }
}
