/** The origin flags of the graph element and the decoding that setOrigin applies to them. */
module OriginFlags {

  const Left: bv32 := 0x0001
  const Right: bv32 := 0x0002
  const Top: bv32 := 0x0004
  const Bottom: bv32 := 0x0008
  const Center: bv32 := 0x0010

  /** An origin component: -1 pins the axis origin to the low edge (left or bottom),
      1 to the high edge (right or top), 0 centres it. */
  predicate IsOffset(o: int) {
    o == -1 || o == 0 || o == 1
  }

  datatype Offset = Offset(x: int, y: int)

  /** setOrigin's decoding: Left takes precedence over Right, Bottom over Top,
      and an axis with neither of its edge flags is centred. */
  function Decode(mask: bv32): (o: Offset)
    ensures IsOffset(o.x) && IsOffset(o.y)
    ensures o.x == -1 <==> mask & Left != 0
    ensures o.x == 1 <==> mask & Left == 0 && mask & Right != 0
    ensures o.y == -1 <==> mask & Bottom != 0
    ensures o.y == 1 <==> mask & Bottom == 0 && mask & Top != 0
  {
    var x := if mask & Left != 0 then -1 else if mask & Right != 0 then 1 else 0;
    var y := if mask & Bottom != 0 then -1 else if mask & Top != 0 then 1 else 0;
    Offset(x, y)
  }

  /** The mask a caller combines to ask for a given offset: the flag of each pinned edge,
      and Center when neither axis is pinned. */
  function Encode(o: Offset): bv32
    requires IsOffset(o.x) && IsOffset(o.y)
  {
    (if o.x == -1 then Left else if o.x == 1 then Right else 0)
    | (if o.y == -1 then Bottom else if o.y == 1 then Top else 0)
    | (if o.x == 0 && o.y == 0 then Center else 0)
  }

  /** Every offset is reachable, and the flags that name it decode back to it. */
  lemma DecodeEncode(o: Offset)
    requires IsOffset(o.x) && IsOffset(o.y)
    ensures Decode(Encode(o)) == o
  {
  }

  /** Only the four edge flags matter: Center and every higher bit are ignored. */
  lemma DecodeIgnoresOtherBits(mask: bv32)
    ensures Decode(mask) == Decode(mask & (Left | Right | Top | Bottom))
  {
  }

  /** The precedence table on the combinations callers are expected to use. */
  lemma DecodeTable()
    ensures Decode(0) == Offset(0, 0)
    ensures Decode(Center) == Offset(0, 0)
    ensures Decode(Left | Right) == Offset(-1, 0)
    ensures Decode(Top | Bottom) == Offset(0, -1)
    ensures Decode(Left | Bottom) == Offset(-1, -1)
    ensures Decode(Right | Top) == Offset(1, 1)
  {
  }
}
