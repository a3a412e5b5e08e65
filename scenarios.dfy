/** Callers' views of the graph element: what a sequence of calls leaves behind. */
module Scenarios {
  import opened OriginFlags
  import opened SeriesStore
  import opened Transform
  import opened Graph

  /** Removing the index addElement returned restores the series list; with auto-render set
      each of the two calls renders once. */
  method AddThenRemove(g: GraphElement, color: Rgba, data: array<real>)
    requires g.Valid() && data.Length % 2 == 0
    modifies g
    ensures g.Valid()
    ensures g.elements == old(g.elements)
    ensures !g.autoRender ==> g.log == old(g.log)
    ensures g.autoRender ==> DrawCount(g.log) == DrawCount(old(g.log)) + 2 * |g.elements| + 5
  {
    ghost var before := g.log;
    var index := g.AddElement(color, data);
    ghost var between := g.log;
    ghost var first := g.Triggered();
    g.RemoveElement(index);
    ghost var second := g.Triggered();
    SpliceUndoesAppend(old(g.elements), Series(Normalized(color), data[..]));
    if g.autoRender {
      assert between == before + first && g.log == between + second;
      assert DrawCount(first) == |g.elements| + 3 by {
        RenderDrawCount(g.autoClear, old(g.elements) + [Series(Normalized(color), data[..])], g.CurrentView());
      }
      assert DrawCount(second) == |g.elements| + 2 by {
        RenderDrawCount(g.autoClear, g.elements, g.CurrentView());
      }
      DrawCountAppend(before, first);
      DrawCountAppend(between, second);
    }
  }

  /** With auto-render off, a batch of mutations issues no surface call at all. */
  method BatchedUpdates(g: GraphElement, color: Rgba, data: array<real>, mask: bv32, rangeX: real, rangeY: real)
    requires g.Valid() && !g.autoRender && data.Length % 2 == 0
    requires rangeX != 0.0 && rangeY != 0.0
    modifies g
    ensures g.Valid() && g.log == old(g.log)
    ensures Offset(g.originX, g.originY) == Decode(mask) && g.rangeX == rangeX && g.rangeY == rangeY
    ensures g.elements == old(g.elements)
  {
    var index := g.AddElement(color, data);
    g.SetOrigin(mask);
    g.SetRange(rangeX, rangeY);
    g.SetAutoClear(true);
    g.RemoveElement(index);
    SpliceUndoesAppend(old(g.elements), Series(Normalized(color), data[..]));
  }

  /** addElement keeps a copy: writing to the caller's array afterwards leaves the stored series as it was. */
  method CopyOnAdd(g: GraphElement, color: Rgba, data: array<real>)
    requires g.Valid() && data.Length % 2 == 0 && data.Length > 0
    modifies g, data
    ensures |g.elements| == |old(g.elements)| + 1
    ensures g.elements[|g.elements| - 1].data == old(data[..])
    ensures data[0] == 99.0
  {
    var index := g.AddElement(color, data);
    data[0] := 99.0;
  }

  /** setRange changes the ranges and touches neither the origin nor the series. */
  method RangeLeavesOrigin(g: GraphElement, rangeX: real, rangeY: real)
    requires g.Valid() && rangeX != 0.0 && rangeY != 0.0
    modifies g
    ensures g.rangeX == rangeX && g.rangeY == rangeY
    ensures g.originX == old(g.originX) && g.originY == old(g.originY) && g.elements == old(g.elements)
  {
    g.SetRange(rangeX, rangeY);
  }

  /** setOrigin changes the origin and touches neither the ranges nor the series. */
  method OriginLeavesRange(g: GraphElement, mask: bv32)
    requires g.Valid()
    modifies g
    ensures Offset(g.originX, g.originY) == Decode(mask)
    ensures g.rangeX == old(g.rangeX) && g.rangeY == old(g.rangeY) && g.elements == old(g.elements)
  {
    g.SetOrigin(mask);
  }

  /** Any valid element, after setOrigin(LEFT|BOTTOM) and setRange(20, 10): the corner points
      of the data range land on the corners of the device square. */
  method PinnedCorners(g: GraphElement)
    requires g.Valid()
    modifies g
    ensures g.CurrentView() == Viewport(-1, -1, 20.0, 10.0)
    ensures Scale(0.0, g.originX, g.rangeX) == -1.0 && Scale(20.0, g.originX, g.rangeX) == 1.0
    ensures Scale(0.0, g.originY, g.rangeY) == -1.0 && Scale(10.0, g.originY, g.rangeY) == 1.0
  {
    g.SetOrigin(Left | Bottom);
    g.SetRange(20.0, 10.0);
    ScaleEdges(20.0);
    ScaleEdges(10.0);
  }
}
