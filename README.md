# HTMLGraphElement — a verified model of the line-chart element

`HTMLGraphElement` is a canvas custom element that draws line charts with WebGL. It holds the following state:

- a list of series, each a colour and a flat list of alternating x, y values;
- an origin that pins each axis to an edge of the canvas or to its centre;
- the visible data range of each axis;
- two flags: auto-clear, and auto-render, which re-renders after every `addElement`, `removeElement`, `setOrigin` and `setRange`.

`render` optionally clears the canvas. For each series it then maps the data to device space, drops the pairs whose x falls outside [-1, 1], and packs each surviving pair with the series colour into one line-strip draw. Last, it draws two black axis strips through the origin.

The model has four modules:

- `OriginFlags`: the five origin flags and the decoding that `setOrigin` applies to a mask.
- `SeriesStore`: what `addElement` stores and how `removeElement` splices the list.
- `Transform`: the map/filter/reduce chain of `render`, written as the source writes it. It sits next to a reference definition: the surviving pairs, each packed as six floats. The module proves that the chain computes the reference, and it also holds the vertex layout that `draw` declares.
- `Graph`: the element as a class `GraphElement` with the source's fields and mutators. WebGL is replaced by a ghost log of surface calls (`ClearSurface`, `DrawLineStrip(vertices, count)`), so "what is drawn, in which order, with how many vertices" becomes a postcondition.

A fifth module, `Scenarios`, holds caller-side methods. Each one shows what a sequence of calls leaves behind.

Points of the code's behaviour worth knowing:

- `setRange` assigns both ranges without validating them. The model asks for non-zero ranges as a precondition, because the transform divides by them.
- `removeElement` with an index past the end is a no-op: `splice` removes nothing there.
- The element has no operation that empties the series list.
- `drawArrays` receives the packed array's length divided by 6, which is the number of *surviving* points.
- A dropped pair does not break the line strip. The strip joins the neighbouring kept points directly (`Transform.ClippedPointIsBridged`).

## Model

| member | source | states |
|---|---|---|
| OriginFlags.Decode | HTMLGraphElement.js:81-88 | both offsets are in {-1, 0, 1}; x is -1 exactly when LEFT is set, 1 exactly when RIGHT is set without LEFT; y is -1 exactly when BOTTOM is set, 1 exactly when TOP is set without BOTTOM |
| OriginFlags.DecodeEncode | HTMLGraphElement.js:32-36 | every offset pair is reachable: the flags naming it decode back to it |
| OriginFlags.DecodeIgnoresOtherBits | HTMLGraphElement.js:83-86 | only the four edge flags matter; CENTER and all higher bits are ignored |
| OriginFlags.DecodeTable | HTMLGraphElement.js:82-86 | 0 and CENTER give (0, 0); LEFT\|RIGHT gives x = -1; TOP\|BOTTOM gives y = -1; LEFT\|BOTTOM gives (-1, -1); RIGHT\|TOP gives (1, 1) |
| SeriesStore.Normalized | HTMLGraphElement.js:64 | the stored colour is the given one divided channel by channel by 255: scaling it back by 255 gives the given colour |
| SeriesStore.NormalizedRoundTrip | HTMLGraphElement.js:64 | dividing the channels by 255 loses nothing: multiplying by 255 undoes it, both ways round |
| SeriesStore.NormalizedInUnitRange | HTMLGraphElement.js:64 | a colour normalises into 0..1 if and only if it was given in 0..255 |
| SeriesStore.Splice | HTMLGraphElement.js:71 | for an index in range, the result is one shorter, keeps the elements before the index and shifts the later ones down by one; for an index past the end the list is unchanged |
| SeriesStore.SpliceRemovesOne | HTMLGraphElement.js:71 | splicing removes exactly one occurrence of the element at the index (as multisets) |
| SeriesStore.SpliceUndoesAppend | HTMLGraphElement.js:66-71 | removing the index that an append reported restores the previous list |
| Transform.Scale | HTMLGraphElement.js:132 | the device value n of raw v satisfies (n - origin) · range = v · factor, the factor being 1 for a centred axis and 2 for a pinned one |
| Transform.ScaleRoundTrip | HTMLGraphElement.js:132 | the scaling `v * factor / range + origin` is invertible: it and its inverse undo each other |
| Transform.ScaleEdges | HTMLGraphElement.js:132 | for each origin the ends of the visible span land exactly on -1 and 1: [0, range] pinned low, [-range, range] centred, [-range, 0] pinned high |
| Transform.ScaleVisibleIffInSpan | HTMLGraphElement.js:132 | for a positive range, a raw value maps into [-1, 1] if and only if it lies in its axis's visible span (boundary included) |
| Transform.ToDevice | HTMLGraphElement.js:132 | the mapped list has the data's length; slot i is the scaled value of slot i, on the x axis for even i and on the y axis for odd i |
| Transform.ClipUpTo | HTMLGraphElement.js:132 | the filter as a left fold; `ClipPair` and `ClipKeepsValues` state it |
| Transform.Clip | HTMLGraphElement.js:132 | the filter never adds values: its output is no longer than its input and a sub-multiset of it |
| Transform.ClipKeepsValues | HTMLGraphElement.js:132 | filtering the first n values yields at most n values, all drawn from those n |
| Transform.Pack | HTMLGraphElement.js:132 | the reduce as a left fold; `PackPair` and `PackLength` state it |
| Transform.SeriesVertices | HTMLGraphElement.js:132-133 | map, then filter, then reduce; `SeriesVerticesAreVisible` states it equals `Vertices(Visible(data, v), color)` |
| Transform.PackLength | HTMLGraphElement.js:132 | the reduce's output has \|f\| + 4·(\|f\| / 2) values |
| Transform.Survivors | HTMLGraphElement.js:132 | the surviving pair indices are below the bound and strictly increasing, and a pair survives if and only if its device x has absolute value at most 1 |
| Transform.Kept | HTMLGraphElement.js:132 | one kept point per surviving pair |
| Transform.MappedPair | HTMLGraphElement.js:132 | slot 2j of the mapped list is pair j's x scaled on the x axis, and slot 2j+1 its y scaled on the y axis |
| Transform.VisibleAreSurvivingPoints | HTMLGraphElement.js:132 | the visible points are the device points of the surviving pairs in their original order, and a pair survives exactly when its device x is in [-1, 1]; y is never tested |
| Transform.ClipPair | HTMLGraphElement.js:132 | the filter keeps or drops the x and the y of a pair together, on the test of the x |
| Transform.ClipEven | HTMLGraphElement.js:132 | the filter leaves whole pairs: its output has even length |
| Transform.PackPair | HTMLGraphElement.js:132 | the reduce turns one more pair into x, y followed by the four colour channels |
| Transform.KeptSnoc | HTMLGraphElement.js:132 | one more pair adds its point to the kept points exactly when its x is in [-1, 1] |
| Transform.ChainKeep | HTMLGraphElement.js:132 | a pair that passes the test extends the chain's output and the reference by the same vertex |
| Transform.ChainDrop | HTMLGraphElement.js:132 | a pair that fails the test extends neither the chain's output nor the reference |
| Transform.ChainEmpty | HTMLGraphElement.js:132 | over no pairs both the chain and the reference are empty |
| Transform.ChainStep | HTMLGraphElement.js:132 | whether the next pair passes the test or not, the chain's output and the reference stay equal |
| Transform.ChainUpTo | HTMLGraphElement.js:132 | over the first j pairs, filter-then-reduce equals the six-float packing of the surviving pairs |
| Transform.SeriesVerticesAreVisible | HTMLGraphElement.js:131-133 | the array render draws for a series is exactly `[x, y, r, g, b, a]` for each visible point, in order |
| Transform.VerticesLayout | HTMLGraphElement.js:107-117 | stride is 24 bytes and the colour offset 8; the vertex count is the number of points; read through the declared attributes, vertex k has point k's position and the series colour |
| Transform.VertexCount | HTMLGraphElement.js:117 | the drawArrays count k is the number of whole six-float vertices: 6k <= length < 6(k + 1) |
| Transform.VerticesCount | HTMLGraphElement.js:117 | for a packed array the drawArrays count is exactly the number of points |
| Transform.VertexBlock | HTMLGraphElement.js:107-111 | vertex k of a packed array is point k's x and y followed by the four colour channels |
| Transform.SeriesVertexCount | HTMLGraphElement.js:117 | a series' packed array has 6 floats per surviving pair, so the drawArrays count is the number of surviving points |
| Transform.CenteredExample | HTMLGraphElement.js:132 | centred origin with ranges 10: data (0,0), (5,5), (20,20) draws (0,0) and (0.5,0.5) in the series colour, and (20,20) is clipped |
| Transform.CenteredVisible | HTMLGraphElement.js:132 | in the same setting the visible points are (0,0) and (0.5,0.5) |
| Transform.ClippedPointIsBridged | HTMLGraphElement.js:132 | when the middle of three pairs is out of range, the kept points are the first and the third, adjacent in the strip |
| Graph.DrawEvent | HTMLGraphElement.js:117 | draw records a line strip over the whole array whose count is the number of whole six-float vertices in it |
| Graph.VerticalAxis | HTMLGraphElement.js:135 | the vertical axis is the packed strip of the points (originX, -1) and (originX, 1) in opaque black |
| Graph.HorizontalAxis | HTMLGraphElement.js:136 | the horizontal axis is the packed strip of the points (-1, originY) and (1, originY) in opaque black |
| Graph.RenderEvents | HTMLGraphElement.js:123-137 | a render issues one event per series plus the two axes, and one more, the clear, when auto-clear is set |
| Graph.Frame | HTMLGraphElement.js:124-136 | the frame is two events longer than the draws it surrounds, three with the clear, and ends with the vertical then the horizontal axis |
| Graph.SeriesDraws | HTMLGraphElement.js:131-134 | one draw per series |
| Graph.SeriesDrawsSnoc | HTMLGraphElement.js:131-134 | drawing the next series appends exactly its draw |
| Graph.FrameLayout | HTMLGraphElement.js:124-136 | a render frame holds the clear exactly when auto-clear is set, then the series draws in order, then the vertical and the horizontal axis |
| Graph.FrameDrawCount | HTMLGraphElement.js:124-136 | a frame makes two draw calls more than the series draws it surrounds |
| Graph.RenderFrame | HTMLGraphElement.js:123-137 | a render issues a clear first if and only if auto-clear is set, one event per series, then the vertical axis at originX and the horizontal axis at originY |
| Graph.RenderSeriesOrder | HTMLGraphElement.js:131-134 | series i is drawn at position i after the optional clear: series are drawn in list order, each with its transformed array |
| Graph.RenderDrawCount | HTMLGraphElement.js:123-137 | a render makes \|elements\| + 2 draw calls |
| Graph.RenderCounts | HTMLGraphElement.js:133-136 | each series draw passes drawArrays the number of its surviving points, and each axis 2 |
| Graph.GraphElement.constructor | HTMLGraphElement.js:22-30 | defaults: no series, origin (0, 0), ranges 10, both flags off, nothing drawn |
| Graph.GraphElement.AddElement | HTMLGraphElement.js:62-69 | appends one series with the colour divided by 255 and a copy of the data, earlier series unchanged; returns the new last index; renders once if and only if auto-render is set |
| Graph.GraphElement.RemoveElement | HTMLGraphElement.js:70-73 | the list becomes its splice at the index; renders once if and only if auto-render is set |
| Graph.GraphElement.SetAutoClear | HTMLGraphElement.js:75-77 | sets only the auto-clear flag; draws nothing |
| Graph.GraphElement.SetAutoRender | HTMLGraphElement.js:78-80 | sets only the auto-render flag; draws nothing |
| Graph.GraphElement.SetOrigin | HTMLGraphElement.js:81-90 | the origin becomes the decoding of the mask, nothing else changes; renders once if and only if auto-render is set |
| Graph.GraphElement.SetRange | HTMLGraphElement.js:91-95 | both ranges are assigned, nothing else changes; renders once if and only if auto-render is set |
| Graph.GraphElement.Clear | HTMLGraphElement.js:97-103 | appends one clear of the surface |
| Graph.GraphElement.Draw | HTMLGraphElement.js:104-122 | appends one line-strip draw of the array, whose count is the number of whole six-float vertices in it |
| Graph.GraphElement.Render | HTMLGraphElement.js:123-137 | appends exactly the render frame of the current state to the log |
| Graph.GraphElement.DrawElements | HTMLGraphElement.js:131-134 | the series loop appends one draw per series in list order |
| Scenarios.AddThenRemove | HTMLGraphElement.js:62-73 | adding then removing the returned index restores the list; without auto-render nothing is drawn, with it the draw count grows by 2·\|elements\| + 5 |
| Scenarios.BatchedUpdates | HTMLGraphElement.js:62-95 | with auto-render off, a batch of mutators draws nothing and leaves the decoded origin and the given ranges |
| Scenarios.CopyOnAdd | HTMLGraphElement.js:65 | writing to the caller's array after addElement leaves the stored data as it was |
| Scenarios.RangeLeavesOrigin | HTMLGraphElement.js:91-95 | setRange assigns the ranges and leaves the origin and the series unchanged |
| Scenarios.OriginLeavesRange | HTMLGraphElement.js:81-90 | setOrigin sets the decoded origin and leaves the ranges and the series unchanged |
| Scenarios.PinnedCorners | HTMLGraphElement.js:81-95 | after setOrigin(LEFT\|BOTTOM) and setRange(20, 10), raw 0 and the range map to -1 and 1 on both axes |

## Left out

- The WebGL context, shader compilation and program linking in the constructor are left out. So are the throw when linking fails, and `createProgram`, `createShader` and `createBuffer`. These are foreign calls; the model's constructor starts from a working surface.
- The shader source strings, the custom-element registration, `observedAttributes` and the empty lifecycle callbacks are left out. They are host glue with no behaviour.
- The `gl.*` calls inside `clear` and `draw` are left out. `clear` becomes one `ClearSurface` event; its white clear colour and viewport size are not recorded. `draw` becomes one `DrawLineStrip` event carrying the array and the count.
- Floating point is not modelled. Values are reals, so the Float32 narrowing of the vertex buffer and the double rounding of the transform are absent.
- Graph.GraphElement.SetRange: requires non-zero ranges. The source accepts any number, and a zero range divides by zero, producing Infinity or NaN, which reals cannot represent.
- Graph.GraphElement.AddElement: requires an even data length. The source lets an odd-length list leave a trailing unpaired x in the packed array.
- Graph.GraphElement.RemoveElement: takes a non-negative integer index. Negative indices, which `splice` counts from the end, and fractional indices are not modelled.
- Graph.GraphElement.SetOrigin: takes a 32-bit mask. JavaScript's conversion of an arbitrary number to a 32-bit integer before `&` is not modelled.
- Colours have exactly four channels. The source maps over whatever array it is given; the shader reads four.
- Graph.GraphElement.Draw: the count is the integer quotient of the length by 6. The source divides as a float. The two agree on every array render produces, whose length is a multiple of 6 (`Transform.VerticesLayout`).
- The browser demo driver `script.js` is not part of this model: it consists of DOM lookups, timing and random data. It also calls `setRangeX` and `setRangeY`, which the element does not define.
- Transform.ScaleVisibleIffInSpan: stated for positive ranges only. A negative range mirrors the axis, and the model does not characterise that case.
