/** The resize handler of the chart's trend cursors.

    The handler remembers the chart size it last saw. When it is called with a
    different size it rebuilds the list of cursor graphics: a cursor's line and
    marker elements are recomputed when the height changed, and its horizontal
    position when the width changed. The pixel calculations depend on the
    charting library and are taken as given functions. */
module TrendCursorResize {
  import opened JsValues

  /** Chart size in pixels. */
  datatype Size = Size(width: real, height: real)

  /** One child graphic of a trend cursor: its vertical line, a series marker or a label. */
  datatype Element = Element(name: string, y: real)

  /** A trend cursor graphic: the timestamp it marks, its horizontal pixel
      position, its child graphics and its other options (style, z-index,
      drag handlers, ...), which the handler leaves as they are. */
  datatype TrendCursor = TrendCursor(
    id: string,
    timestampInMs: real,
    x: real,
    children: seq<Element>,
    options: Fields)

  /** The chart-dependent calculations the handler calls, as they stand for one
      call (they close over the chart instance, its series and visualization). */
  datatype Chart = Chart(
    /** The horizontal pixel position of a timestamp (`calculateXFromTimestamp`). */
    xFromTimestamp: real -> real,
    /** The pixel positions of the series markers at a timestamp (`calculateSeriesMakers`). */
    seriesMarkers: real -> seq<real>,
    /** The children moved to the given markers in a chart of the given size
        (`onResizeUpdateTrendCursorYValues`). */
    updateYValues: (seq<Element>, seq<real>, Size) -> seq<Element>)

  /** The state the handler reads: the remembered size (`prevSize.current`)
      and the cursor graphics (the `graphic` state `setGraphic` writes). */
  datatype Hook = Hook(prevSize: Size, graphic: seq<TrendCursor>)

  /** What one call does: the value left in `prevSize.current`, and the list
      passed to `setGraphic` if it was called at all. */
  datatype Effect = Effect(prevSize: Size, setGraphic: Option<seq<TrendCursor>>)

  /** A resize as the handler sees it: the new size and the chart at that moment. */
  datatype Resize = Resize(size: Size, chart: Chart)

  /** The relation between a cursor `g` before and `r` after one resize from
      `prev` to `size`: its identity, timestamp and other options are untouched; its `x` is
      recomputed from the timestamp when the width changed and untouched
      otherwise; its children are recomputed from the series markers at the
      timestamp when the height changed and untouched otherwise. */
  ghost predicate CursorResized(g: TrendCursor, r: TrendCursor, prev: Size, size: Size, chart: Chart)
  {
    && r.id == g.id
    && r.timestampInMs == g.timestampInMs
    && r.options == g.options
    && (size.width == prev.width ==> r.x == g.x)
    && (size.width != prev.width ==> r.x == chart.xFromTimestamp(g.timestampInMs))
    && (size.height == prev.height ==> r.children == g.children)
    && (size.height != prev.height ==>
          r.children == chart.updateYValues(g.children, chart.seriesMarkers(g.timestampInMs), size))
  }

  /** One cursor resized: children first when the height changed, then `x`
      when the width changed. */
  function ResizeCursor(g: TrendCursor, prev: Size, size: Size, chart: Chart): TrendCursor
  {
    var g1 :=
      if size.height != prev.height then
        g.(children := chart.updateYValues(g.children, chart.seriesMarkers(g.timestampInMs), size))
      else g;
    if size.width != prev.width then g1.(x := chart.xFromTimestamp(g1.timestampInMs)) else g1
  }

  /** Every cursor of the list resized, in list order. */
  function ResizeCursors(gs: seq<TrendCursor>, prev: Size, size: Size, chart: Chart): (r: seq<TrendCursor>)
    ensures |r| == |gs|
    ensures forall i :: 0 <= i < |gs| ==> CursorResized(gs[i], r[i], prev, size, chart)
    decreases |gs|
  {
    if gs == [] then []
    else [ResizeCursor(gs[0], prev, size, chart)] + ResizeCursors(gs[1..], prev, size, chart)
  }

  /** One call of the handler with the current `size`. In the render that
      mounts the hook the remembered size is that same size, so that call
      never rebuilds the cursors. */
  function HandleResize(h: Hook, size: Size, chart: Chart): (e: Effect)
    ensures e.prevSize == size
    ensures e.setGraphic.None? <==> size == h.prevSize
    ensures e.setGraphic.None? ==> e.prevSize == h.prevSize
    ensures e.setGraphic.Some? ==>
              && |e.setGraphic.value| == |h.graphic|
              && forall i :: 0 <= i < |h.graphic| ==>
                   CursorResized(h.graphic[i], e.setGraphic.value[i], h.prevSize, size, chart)
  {
    if size.width != h.prevSize.width || size.height != h.prevSize.height then
      Effect(size, Some(ResizeCursors(h.graphic, h.prevSize, size, chart)))
    else
      Effect(h.prevSize, None)
  }

  /** The hook's state after a call: the remembered size and, if `setGraphic`
      was called, the new list. */
  function Step(h: Hook, r: Resize): Hook
  {
    var e := HandleResize(h, r.size, r.chart);
    Hook(e.prevSize, e.setGraphic.GetOr(h.graphic))
  }

  /** The state after a sequence of calls. Between two calls only the handler
      itself changes the list here: cursors that the user adds, drags or
      deletes in between are outside this model. */
  function Run(h: Hook, rs: seq<Resize>): Hook
    decreases |rs|
  {
    if rs == [] then h else Run(Step(h, rs[0]), rs[1..])
  }

  /** `useRef(size)`: the first render remembers the size it was mounted with. */
  function Mount(size: Size, graphic: seq<TrendCursor>): Hook
  {
    Hook(size, graphic)
  }

  // ---------------------------------------------------------------------------
  // Properties

  /** Running a sequence and then one more call is one call after the run. */
  lemma {:induction false} RunAppend(h: Hook, rs: seq<Resize>, r: Resize)
    ensures Run(h, rs + [r]) == Step(Run(h, rs), r)
    decreases |rs|
  {
    if rs != [] {
      assert (rs + [r])[1..] == rs[1..] + [r];
      RunAppend(Step(h, rs[0]), rs[1..], r);
    }
  }

  /** After any non-empty sequence of calls, a further call with the last size,
      whatever the chart now computes, calls no `setGraphic` and changes nothing. */
  lemma RepeatedSizeIsNoOp(h: Hook, rs: seq<Resize>, chart': Chart)
    requires rs != []
    ensures HandleResize(Run(h, rs), rs[|rs| - 1].size, chart').setGraphic.None?
    ensures Run(h, rs + [Resize(rs[|rs| - 1].size, chart')]) == Run(h, rs)
  {
    RunPreservesCursors(h, rs);
    RunAppend(h, rs, Resize(rs[|rs| - 1].size, chart'));
  }

  /** Every call of `rs` keeps the height `height`. */
  ghost predicate KeepsHeight(rs: seq<Resize>, height: real)
  {
    forall k :: 0 <= k < |rs| ==> rs[k].size.height == height
  }

  /** Every call of `rs` has the size `size`. */
  ghost predicate KeepsSize(rs: seq<Resize>, size: Size)
  {
    forall k :: 0 <= k < |rs| ==> rs[k].size == size
  }

  /** A chart that is re-rendered without ever changing the size it was
      mounted with never has its cursors rebuilt, whatever the chart computes. */
  lemma {:induction false} UnresizedMountIsStable(size: Size, graphic: seq<TrendCursor>, rs: seq<Resize>)
    requires KeepsSize(rs, size)
    ensures Run(Mount(size, graphic), rs) == Mount(size, graphic)
    decreases |rs|
  {
    if rs != [] {
      assert Step(Mount(size, graphic), rs[0]) == Mount(size, graphic);
      assert KeepsSize(rs[1..], size) by {
        forall k | 0 <= k < |rs[1..]| ensures rs[1..][k].size == size {
          assert rs[1..][k] == rs[k + 1];
        }
      }
      UnresizedMountIsStable(size, graphic, rs[1..]);
    }
  }

  /** Every call of `rs` keeps the width `width`. */
  ghost predicate KeepsWidth(rs: seq<Resize>, width: real)
  {
    forall k :: 0 <= k < |rs| ==> rs[k].size.width == width
  }

  /** Calls that never change the height never touch a cursor's children;
      calls that never change the width never touch a cursor's `x`. */
  lemma {:induction false} OneDimensionResizes(h: Hook, rs: seq<Resize>)
    ensures |Run(h, rs).graphic| == |h.graphic|
    ensures KeepsHeight(rs, h.prevSize.height) ==>
              forall i :: 0 <= i < |h.graphic| ==> Run(h, rs).graphic[i].children == h.graphic[i].children
    ensures KeepsWidth(rs, h.prevSize.width) ==>
              forall i :: 0 <= i < |h.graphic| ==> Run(h, rs).graphic[i].x == h.graphic[i].x
    decreases |rs|
  {
    RunPreservesCursors(h, rs);
    if rs != [] {
      var h' := Step(h, rs[0]);
      OneDimensionResizes(h', rs[1..]);
      if KeepsHeight(rs, h.prevSize.height) {
        assert rs[0].size.height == h.prevSize.height;
        assert KeepsHeight(rs[1..], h'.prevSize.height) by {
          forall k | 0 <= k < |rs[1..]| ensures rs[1..][k].size.height == h'.prevSize.height {
            assert rs[1..][k] == rs[k + 1];
          }
        }
      }
      if KeepsWidth(rs, h.prevSize.width) {
        assert rs[0].size.width == h.prevSize.width;
        assert KeepsWidth(rs[1..], h'.prevSize.width) by {
          forall k | 0 <= k < |rs[1..]| ensures rs[1..][k].size.width == h'.prevSize.width {
            assert rs[1..][k] == rs[k + 1];
          }
        }
      }
    }
  }

  /** Over any sequence of calls the list keeps its length, and each cursor its
      identity and timestamp; the remembered size is that of the last call. */
  lemma {:induction false} RunPreservesCursors(h: Hook, rs: seq<Resize>)
    ensures |Run(h, rs).graphic| == |h.graphic|
    ensures forall i :: 0 <= i < |h.graphic| ==>
              && Run(h, rs).graphic[i].id == h.graphic[i].id
              && Run(h, rs).graphic[i].timestampInMs == h.graphic[i].timestampInMs
    ensures rs != [] ==> Run(h, rs).prevSize == rs[|rs| - 1].size
    decreases |rs|
  {
    if rs != [] {
      var h' := Step(h, rs[0]);
      RunPreservesCursors(h', rs[1..]);
      if rs[1..] != [] {
        assert rs[1..][|rs[1..]| - 1] == rs[|rs| - 1];
      }
    }
  }
}
