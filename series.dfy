/** The series store: what addElement keeps for each series and how removeElement edits the list. */
module SeriesStore {

  /** A colour as four channels (red, green, blue, alpha). */
  datatype Rgba = Rgba(r: real, g: real, b: real, a: real) {
    function Channels(): (s: seq<real>)
      ensures |s| == 4
    {
      [r, g, b, a]
    }
  }

  /** A stored series: its normalised colour and a flat list of alternating x, y values. */
  datatype Series = Series(color: Rgba, data: seq<real>)

  /** Channel values on the caller's 0..255 scale. */
  predicate InByteRange(c: Rgba) {
    0.0 <= c.r <= 255.0 && 0.0 <= c.g <= 255.0 && 0.0 <= c.b <= 255.0 && 0.0 <= c.a <= 255.0
  }

  /** Channel values on the shader's 0..1 scale. */
  predicate InUnitRange(c: Rgba) {
    0.0 <= c.r <= 1.0 && 0.0 <= c.g <= 1.0 && 0.0 <= c.b <= 1.0 && 0.0 <= c.a <= 1.0
  }

  /** addElement divides every channel by 255; scaling back by 255 recovers the colour. */
  function Normalized(c: Rgba): (n: Rgba)
    ensures Denormalized(n) == c
  {
    Rgba(c.r / 255.0, c.g / 255.0, c.b / 255.0, c.a / 255.0)
  }

  /** The inverse scaling, from 0..1 back to 0..255. */
  function Denormalized(c: Rgba): Rgba {
    Rgba(c.r * 255.0, c.g * 255.0, c.b * 255.0, c.a * 255.0)
  }

  /** Normalisation loses nothing: it and its inverse undo each other. */
  lemma NormalizedRoundTrip(c: Rgba)
    ensures Denormalized(Normalized(c)) == c
    ensures Normalized(Denormalized(c)) == c
  {
  }

  /** A colour given on the 0..255 scale, and only such a colour, normalises into 0..1. */
  lemma NormalizedInUnitRange(c: Rgba)
    ensures InByteRange(c) <==> InUnitRange(Normalized(c))
  {
  }

  /** removeElement's splice(i, 1) for a non-negative index: drops element i and shifts the
      later ones down by one; an index past the end leaves the list as it is. */
  function Splice<T>(s: seq<T>, i: nat): (r: seq<T>)
    ensures i >= |s| ==> r == s
    ensures i < |s| ==> |r| == |s| - 1
    ensures i < |s| ==> forall j :: 0 <= j < i ==> r[j] == s[j]
    ensures i < |s| ==> forall j :: i <= j < |r| ==> r[j] == s[j + 1]
  {
    if i < |s| then s[..i] + s[i + 1..] else s
  }

  /** Splicing removes exactly one occurrence of the element at i and nothing else. */
  lemma SpliceRemovesOne<T>(s: seq<T>, i: nat)
    requires i < |s|
    ensures multiset(Splice(s, i)) + multiset{s[i]} == multiset(s)
  {
    assert s == s[..i] + [s[i]] + s[i + 1..];
  }

  /** Removing the index that an append reported restores the list that was there before. */
  lemma SpliceUndoesAppend<T>(s: seq<T>, x: T)
    ensures Splice(s + [x], |s|) == s
  {
  }
}
