/** The graph element: its series list, origin, ranges and flags, the mutators that change
    them, and render, which issues the surface calls recorded in an event log. */
module Graph {
  import opened OriginFlags
  import opened SeriesStore
  import opened Transform

  /** A call on the drawing surface: a clear, or one line-strip draw of a packed vertex
      array with the vertex count passed to drawArrays. */
  datatype Event = ClearSurface | DrawLineStrip(vertices: seq<real>, count: nat)

  /** The event draw records for one vertex array: a line strip over the whole array, with
      as many vertices as whole six-float records fit in it. */
  function DrawEvent(buffer: seq<real>): (e: Event)
    ensures e.DrawLineStrip? && e.vertices == buffer
    ensures e.count * 6 <= |buffer| < (e.count + 1) * 6
  {
    DrawLineStrip(buffer, VertexCount(buffer))
  }

  /** Opaque black, the colour of both axes. */
  const Black := Rgba(0.0, 0.0, 0.0, 1.0)

  /** The vertical axis: a black strip from (originX, -1) to (originX, 1). */
  function VerticalAxis(originX: int): (r: seq<real>)
    ensures r == Vertices([Point(originX as real, -1.0), Point(originX as real, 1.0)], Black)
  {
    VerticesOfTwo(Point(originX as real, -1.0), Point(originX as real, 1.0), Black);
    [originX as real, -1.0, 0.0, 0.0, 0.0, 1.0, originX as real, 1.0, 0.0, 0.0, 0.0, 1.0]
  }

  /** The horizontal axis: a black strip from (-1, originY) to (1, originY). */
  function HorizontalAxis(originY: int): (r: seq<real>)
    ensures r == Vertices([Point(-1.0, originY as real), Point(1.0, originY as real)], Black)
  {
    VerticesOfTwo(Point(-1.0, originY as real), Point(1.0, originY as real), Black);
    [-1.0, originY as real, 0.0, 0.0, 0.0, 1.0, 1.0, originY as real, 0.0, 0.0, 0.0, 1.0]
  }

  /** What one render issues: a clear when auto-clear is set, one draw per series in list
      order, then the two axes; so it starts with a clear exactly when auto-clear is set. */
  function RenderEvents(autoClear: bool, elements: seq<Series>, v: Viewport): (e: seq<Event>)
    requires v.Valid()
    ensures |e| == |elements| + (if autoClear then 3 else 2)
  {
    Frame(autoClear, SeriesDraws(elements, v, |elements|), v.originX, v.originY)
  }

  /** The frame around a list of series draws: the optional clear before, the axes after; it
      is two or three events longer than the draws and ends with the two axes. */
  function Frame(autoClear: bool, draws: seq<Event>, originX: int, originY: int): (e: seq<Event>)
    ensures |e| == |draws| + (if autoClear then 3 else 2)
    ensures e[|e| - 2] == DrawEvent(VerticalAxis(originX)) && e[|e| - 1] == DrawEvent(HorizontalAxis(originY))
  {
    (if autoClear then [ClearSurface] else [])
    + draws
    + [DrawEvent(VerticalAxis(originX)), DrawEvent(HorizontalAxis(originY))]
  }

  /** The draws of the first n series, in list order: each a line strip over that series's
      vertex array. */
  function SeriesDraws(elements: seq<Series>, v: Viewport, n: nat): (e: seq<Event>)
    requires v.Valid() && n <= |elements|
    ensures |e| == n
  {
    seq(n, i requires 0 <= i < n => DrawEvent(SeriesVertices(elements[i], v)))
  }

  /** Drawing one more series appends its draw. */
  lemma SeriesDrawsSnoc(elements: seq<Series>, v: Viewport, n: nat)
    requires v.Valid() && n < |elements|
    ensures SeriesDraws(elements, v, n + 1) == SeriesDraws(elements, v, n) + [DrawEvent(SeriesVertices(elements[n], v))]
  {
  }

  /** The number of draw calls in a list of events. */
  function DrawCount(events: seq<Event>): nat {
    if events == [] then 0
    else DrawCount(events[..|events| - 1]) + (if events[|events| - 1].DrawLineStrip? then 1 else 0)
  }

  lemma {:induction false} DrawCountAppend(a: seq<Event>, b: seq<Event>)
    ensures DrawCount(a + b) == DrawCount(a) + DrawCount(b)
    decreases |b|
  {
    if b == [] {
      assert a + b == a;
    } else {
      var b' := b[..|b| - 1];
      assert (a + b)[..|a + b| - 1] == a + b';
      DrawCountAppend(a, b');
    }
  }

  lemma {:induction false} DrawCountOfDraws(events: seq<Event>)
    requires forall i :: 0 <= i < |events| ==> events[i].DrawLineStrip?
    ensures DrawCount(events) == |events|
    decreases |events|
  {
    if events != [] {
      DrawCountOfDraws(events[..|events| - 1]);
    }
  }

  /** A frame around draws holds the clear exactly when auto-clear is set, then the draws in
      order, then the two axes. */
  lemma FrameLayout(autoClear: bool, draws: seq<Event>, originX: int, originY: int)
    requires forall i :: 0 <= i < |draws| ==> draws[i].DrawLineStrip?
    ensures var e := Frame(autoClear, draws, originX, originY);
            var d := if autoClear then 1 else 0;
            && |e| == d + |draws| + 2
            && (e[0] == ClearSurface <==> autoClear)
            && (forall i :: 0 <= i < |draws| ==> e[d + i] == draws[i])
            && e[d + |draws|] == DrawEvent(VerticalAxis(originX))
            && e[d + |draws| + 1] == DrawEvent(HorizontalAxis(originY))
  {
    var clear: seq<Event> := if autoClear then [ClearSurface] else [];
    var e := Frame(autoClear, draws, originX, originY);
    assert e == clear + draws + [DrawEvent(VerticalAxis(originX)), DrawEvent(HorizontalAxis(originY))];
    if !autoClear {
      assert e[0] == if |draws| > 0 then draws[0] else DrawEvent(VerticalAxis(originX));
    }
  }

  /** A frame around draws only makes two draws more than it is given. */
  lemma FrameDrawCount(autoClear: bool, draws: seq<Event>, originX: int, originY: int)
    requires forall i :: 0 <= i < |draws| ==> draws[i].DrawLineStrip?
    ensures DrawCount(Frame(autoClear, draws, originX, originY)) == |draws| + 2
  {
    var axes := [DrawEvent(VerticalAxis(originX)), DrawEvent(HorizontalAxis(originY))];
    var clear: seq<Event> := if autoClear then [ClearSurface] else [];
    assert DrawCount(clear + draws) == |draws| by {
      DrawCountOfDraws(draws);
      DrawCountAppend(clear, draws);
      if autoClear {
        assert clear[..0] == [];
      }
    }
    assert DrawCount(clear + draws + axes) == |draws| + 2 by {
      DrawCountOfDraws(axes);
      DrawCountAppend(clear + draws, axes);
    }
  }

  /** A render issues a clear first exactly when auto-clear is set, and ends with the two
      axes at the current origin, after one event per series. */
  lemma RenderFrame(autoClear: bool, elements: seq<Series>, v: Viewport)
    requires v.Valid()
    ensures var e := RenderEvents(autoClear, elements, v);
            var d := if autoClear then 1 else 0;
            && |e| == d + |elements| + 2
            && (e[0] == ClearSurface <==> autoClear)
            && e[d + |elements|] == DrawEvent(VerticalAxis(v.originX))
            && e[d + |elements| + 1] == DrawEvent(HorizontalAxis(v.originY))
  {
    FrameLayout(autoClear, SeriesDraws(elements, v, |elements|), v.originX, v.originY);
  }

  /** Series i is drawn at position i of the series draws, after the clear if there is one:
      the series are drawn in list order. */
  lemma RenderSeriesOrder(autoClear: bool, elements: seq<Series>, v: Viewport, i: nat)
    requires v.Valid() && i < |elements|
    ensures var d := if autoClear then 1 else 0;
            RenderEvents(autoClear, elements, v)[d + i] == DrawEvent(SeriesVertices(elements[i], v))
  {
    FrameLayout(autoClear, SeriesDraws(elements, v, |elements|), v.originX, v.originY);
  }

  /** A render makes one draw call per series and two for the axes. */
  lemma RenderDrawCount(autoClear: bool, elements: seq<Series>, v: Viewport)
    requires v.Valid()
    ensures DrawCount(RenderEvents(autoClear, elements, v)) == |elements| + 2
  {
    FrameDrawCount(autoClear, SeriesDraws(elements, v, |elements|), v.originX, v.originY);
  }

  /** Each series draw passes drawArrays the number of its surviving points, and each axis two. */
  lemma RenderCounts(s: Series, v: Viewport, originX: int, originY: int)
    requires v.Valid() && |s.data| % 2 == 0
    ensures DrawEvent(SeriesVertices(s, v)).count == |Survivors(ToDevice(s.data, v), |s.data| / 2)|
    ensures DrawEvent(VerticalAxis(originX)).count == 2
    ensures DrawEvent(HorizontalAxis(originY)).count == 2
  {
    SeriesVertexCount(s, v);
  }

  class GraphElement {
    var elements: seq<Series>
    var originX: int
    var originY: int
    var rangeX: real
    var rangeY: real
    var autoClear: bool
    var autoRender: bool
    /** The calls issued on the drawing surface so far, oldest first. */
    ghost var log: seq<Event>

    /** Offsets in {-1, 0, 1}, ranges that can divide, and every series a list of whole pairs. */
    ghost predicate Valid()
      reads this
    {
      && IsOffset(originX) && IsOffset(originY)
      && rangeX != 0.0 && rangeY != 0.0
      && forall i :: 0 <= i < |elements| ==> |elements[i].data| % 2 == 0
    }

    function CurrentView(): (v: Viewport)
      reads this
    {
      Viewport(originX, originY, rangeX, rangeY)
    }

    /** The events a render in the current state issues. */
    ghost function RenderNow(): seq<Event>
      reads this
      requires Valid()
    {
      RenderEvents(autoClear, elements, CurrentView())
    }

    /** The events a mutator adds after its update: one render when auto-render is set, else none. */
    ghost function Triggered(): seq<Event>
      reads this
      requires Valid()
    {
      if autoRender then RenderNow() else []
    }

    constructor ()
      ensures Valid()
      ensures elements == [] && originX == 0 && originY == 0 && rangeX == 10.0 && rangeY == 10.0
      ensures !autoClear && !autoRender && log == []
    {
      elements := [];
      originX, originY := 0, 0;
      rangeX, rangeY := 10.0, 10.0;
      autoClear, autoRender := false, false;
      log := [];
    }

    /** Appends a copy of the series with its colour divided by 255 and returns its index. */
    method AddElement(color: Rgba, data: array<real>) returns (index: nat)
      requires Valid() && data.Length % 2 == 0
      modifies this`elements, this`log
      ensures Valid()
      ensures elements == old(elements) + [Series(Normalized(color), data[..])]
      ensures index == |old(elements)| && index == |elements| - 1
      ensures log == old(log) + Triggered()
    {
      var copy := data[..];
      elements := elements + [Series(Normalized(color), copy)];
      if autoRender {
        Render();
      }
      index := |elements| - 1;
    }

    /** Removes the series at index, shifting the later ones down; an index past the end
        changes nothing. */
    method RemoveElement(index: nat)
      requires Valid()
      modifies this`elements, this`log
      ensures Valid()
      ensures elements == Splice(old(elements), index)
      ensures log == old(log) + Triggered()
    {
      elements := Splice(elements, index);
      if autoRender {
        Render();
      }
    }

    method SetAutoClear(autoClear: bool)
      requires Valid()
      modifies this`autoClear
      ensures Valid()
      ensures this.autoClear == autoClear
    {
      this.autoClear := autoClear;
    }

    method SetAutoRender(autoRender: bool)
      requires Valid()
      modifies this`autoRender
      ensures Valid()
      ensures this.autoRender == autoRender
    {
      this.autoRender := autoRender;
    }

    /** Sets the origin from a mask of the edge flags. */
    method SetOrigin(mask: bv32)
      requires Valid()
      modifies this`originX, this`originY, this`log
      ensures Valid()
      ensures Offset(originX, originY) == Decode(mask)
      ensures log == old(log) + Triggered()
    {
      var o := Decode(mask);
      originX, originY := o.x, o.y;
      if autoRender {
        Render();
      }
    }

    /** Sets both ranges; the element itself does no validation, so a zero range, which
        would divide by zero, is excluded by the precondition. */
    method SetRange(rangeX: real, rangeY: real)
      requires Valid() && rangeX != 0.0 && rangeY != 0.0
      modifies this`rangeX, this`rangeY, this`log
      ensures Valid()
      ensures this.rangeX == rangeX && this.rangeY == rangeY
      ensures log == old(log) + Triggered()
    {
      this.rangeX, this.rangeY := rangeX, rangeY;
      if autoRender {
        Render();
      }
    }

    /** Clears the drawing surface. */
    method Clear()
      modifies this`log
      ensures log == old(log) + [ClearSurface]
    {
      log := log + [ClearSurface];
    }

    /** Draws one packed vertex array as a line strip. */
    method Draw(buffer: seq<real>)
      modifies this`log
      ensures log == old(log) + [DrawEvent(buffer)]
    {
      var count := VertexCount(buffer);
      log := log + [DrawLineStrip(buffer, count)];
    }

    /** Clears when auto-clear is set, draws every series in list order, then the two axes. */
    method Render()
      requires Valid()
      modifies this`log
      ensures log == old(log) + RenderNow()
    {
      if autoClear {
        Clear();
      }
      DrawElements(CurrentView());
      Draw(VerticalAxis(originX));
      Draw(HorizontalAxis(originY));
    }

    /** Render's pass over the series list: transforms and draws each series in list order. */
    method DrawElements(v: Viewport)
      requires v.Valid()
      modifies this`log
      ensures log == old(log) + SeriesDraws(elements, v, |elements|)
    {
      var series := elements;
      var i := 0;
      while i < |series|
        invariant 0 <= i <= |series|
        invariant log == old(log) + SeriesDraws(series, v, i)
      {
        Draw(SeriesVertices(series[i], v));
        SeriesDrawsSnoc(series, v, i);
        i := i + 1;
      }
    }
  }
}
