/** The static mesh tables of src/objects.ts: the flat field polygons (diamond, infield,
    outfield, base, home plate, pitching rubber, strike zone) and the Baseball sphere.

    A polygon holds a flat list of vertex coordinates, three numbers per vertex, and a
    flat list of colour components, four numbers (red, green, blue, alpha) per vertex.
    The subclasses of Polygon become the constructors of `Shape`. */
module Meshes {
  import Sphere

  /** The Polygon subclasses; the strike zone carries its bottom and top heights. */
  datatype Shape = Diamond | Infield | Outfield | Base | HomePlate | PitchingRubber
                 | StrikeZone(bottom: real, top: real)

  /** getVerticesSize and getColorSize. */
  const VerticesSize: nat := 3
  const ColorSize: nat := 4

  /** Half the width and the depth of the strike-zone frame, in metres. */
  const ZoneHalfWidth: real := 0.216
  const ZoneDepth: real := 0.432

  /** The vertex list each constructor assigns. Infield and Base inherit Diamond's. */
  function VertexTable(shape: Shape): seq<real> {
    match shape
    case Diamond | Infield | Base =>
      [ 1.0, 0.0, 0.0,   0.0, 1.0, 0.0,   -1.0, 0.0, 0.0,
       -1.0, 0.0, 0.0,   0.0, -1.0, 0.0,   1.0, 0.0, 0.0]
    case Outfield =>
      [0.0, -0.5, 0.0,   -0.575, 0.075, 0.0,   -0.347, 0.347, 0.0,
       0.0, -0.5, 0.0,   -0.347, 0.347, 0.0,    0.0, 0.5, 0.0,
       0.0, -0.5, 0.0,    0.0, 0.5, 0.0,        0.347, 0.347, 0.0,
       0.0, -0.5, 0.0,    0.347, 0.347, 0.0,    0.575, 0.075, 0.0]
    case HomePlate =>
      [ 0.216, 0.216, 0.0,    0.216, 0.0, 0.0,   -0.216, 0.216, 0.0,
       -0.216, 0.216, 0.0,   -0.216, 0.0, 0.0,    0.216, 0.0, 0.0,
        0.216, 0.0, 0.0,     -0.216, 0.0, 0.0,    0.0, -0.216, 0.0]
    case PitchingRubber =>
      [-0.305, 0.076, 0.0,    0.305, 0.076, 0.0,   -0.305, -0.076, 0.0,
       -0.305, -0.076, 0.0,   0.305, 0.076, 0.0,    0.305, -0.076, 0.0]
    case StrikeZone(bottom, top) =>
      var x, y := ZoneHalfWidth, ZoneDepth;
      [-x, y, top,   x, y, top,   -x, y, bottom,
       -x, y, bottom,   x, y, bottom,   x, y, top]
  }

  /** The shapes whose constructor pushes one colour per vertex in a loop. */
  predicate PushesColors(shape: Shape) {
    shape.Outfield? || shape.HomePlate? || shape.PitchingRubber? || shape.StrikeZone?
  }

  /** The colour such a constructor pushes for every vertex. */
  function VertexColor(shape: Shape): (rgba: seq<real>)
    requires PushesColors(shape)
    ensures |rgba| == ColorSize
  {
    match shape
    case Outfield => [0.0, 0.3, 0.0, 1.0]
    case StrikeZone(_, _) => [1.0, 1.0, 1.0, 0.25]
    case _ => [1.0, 1.0, 1.0, 1.0]
  }

  /** n copies of one colour, back to back. */
  function Tile(rgba: seq<real>, n: nat): seq<real>
    decreases n
  {
    if n == 0 then [] else Tile(rgba, n - 1) + rgba
  }

  /** How many times the loop `for (i = 0; i < getVerticesCount(); i++)` runs for a
      vertex list of the given length: the number of naturals i with i < length / 3. */
  function Iterations(length: nat): nat {
    (length + 2) / 3
  }

  /** The colour list each constructor leaves. Diamond sets none; Infield and Base
      assign fixed lists of 24 numbers. */
  function ColorTable(shape: Shape): seq<real> {
    match shape
    case Diamond => []
    case Infield =>
      [0.0, 0.5, 0.0, 1.0,   0.0, 0.7, 0.0, 1.0,   0.0, 0.5, 0.0, 1.0,
       0.0, 0.5, 0.0, 1.0,   0.0, 0.7, 0.0, 1.0,   0.0, 0.5, 0.0, 1.0]
    case Base =>
      [1.0, 1.0, 1.0, 1.0,   1.0, 1.0, 1.0, 1.0,   1.0, 1.0, 1.0, 1.0,
       1.0, 1.0, 1.0, 1.0,   1.0, 1.0, 1.0, 1.0,   1.0, 1.0, 1.0, 1.0]
    case _ => Tile(VertexColor(shape), Iterations(|VertexTable(shape)|))
  }

  /** getVerticesCount and getColorCount: JavaScript division, so a real. */
  function VerticesCountOf(vertices: seq<real>): (n: real)
    ensures 0.0 <= n && n * VerticesSize as real == |vertices| as real
  {
    |vertices| as real / VerticesSize as real
  }

  function ColorCountOf(colors: seq<real>): (n: real)
    ensures 0.0 <= n && n * ColorSize as real == |colors| as real
  {
    |colors| as real / ColorSize as real
  }

  /** Tiling a four-component colour n times gives 4 n numbers, and each number is the
      colour's component at its position modulo 4. */
  lemma {:induction false} TileShape(rgba: seq<real>, n: nat)
    requires |rgba| == ColorSize
    ensures |Tile(rgba, n)| == 4 * n
    ensures forall i :: 0 <= i < 4 * n ==> Tile(rgba, n)[i] == rgba[i % 4]
    decreases n
  {
    if n > 0 {
      TileShape(rgba, n - 1);
      var t := Tile(rgba, n);
      forall i | 0 <= i < 4 * n
        ensures t[i] == rgba[i % 4]
      {
        if i < 4 * (n - 1) {
          assert t[i] == Tile(rgba, n - 1)[i];
        } else {
          assert t[i] == rgba[i - 4 * (n - 1)];
        }
      }
    }
  }

  /** Every vertex list holds whole vertices: Diamond (and so Infield and Base) 6,
      Outfield 12, HomePlate 9, PitchingRubber 6 and StrikeZone 6. */
  lemma VertexCounts(bottom: real, top: real)
    ensures VerticesCountOf(VertexTable(Diamond)) == 6.0
    ensures VerticesCountOf(VertexTable(Infield)) == 6.0 && VerticesCountOf(VertexTable(Base)) == 6.0
    ensures VerticesCountOf(VertexTable(Outfield)) == 12.0
    ensures VerticesCountOf(VertexTable(HomePlate)) == 9.0
    ensures VerticesCountOf(VertexTable(PitchingRubber)) == 6.0
    ensures VerticesCountOf(VertexTable(StrikeZone(bottom, top))) == 6.0
    ensures forall shape :: |VertexTable(shape)| % VerticesSize == 0
  {
  }

  /** Every drawn polygon has exactly one colour per vertex: the looping constructors
      push four components per vertex, and the fixed Infield and Base lists hold 24
      numbers for Diamond's 6 vertices. Diamond alone has no colours. */
  lemma ColorsMatchVertices(shape: Shape)
    ensures shape != Diamond ==> ColorCountOf(ColorTable(shape)) == VerticesCountOf(VertexTable(shape))
    ensures shape == Diamond ==> ColorCountOf(ColorTable(shape)) == 0.0
  {
    VertexCounts(0.0, 0.0);
    if PushesColors(shape) {
      TileShape(VertexColor(shape), Iterations(|VertexTable(shape)|));
    }
  }

  /** In a looping shape's colour list, component j of every vertex is component j of
      the shape's colour. */
  lemma PerVertexColor(shape: Shape)
    requires PushesColors(shape)
    ensures |ColorTable(shape)| == 4 * (|VertexTable(shape)| / 3)
    ensures forall i :: 0 <= i < |ColorTable(shape)| ==> ColorTable(shape)[i] == VertexColor(shape)[i % 4]
  {
    TileShape(VertexColor(shape), Iterations(|VertexTable(shape)|));
  }

  /** The strike-zone frame: every vertex has x = +-0.216, y = 0.432 and z one of the
      two heights; every colour is white with alpha 0.25. */
  lemma StrikeZoneGeometry(bottom: real, top: real)
    ensures var v := VertexTable(StrikeZone(bottom, top));
      forall k :: 0 <= k < 6 ==>
        && (v[3 * k] == ZoneHalfWidth || v[3 * k] == -ZoneHalfWidth)
        && v[3 * k + 1] == ZoneDepth
        && (v[3 * k + 2] == top || v[3 * k + 2] == bottom)
    ensures var c := ColorTable(StrikeZone(bottom, top));
      |c| == 24 && forall i :: 0 <= i < 24 ==> c[i] == if i % 4 == 3 then 0.25 else 1.0
  {
    TileShape(VertexColor(StrikeZone(bottom, top)), 6);
  }

  /** A field polygon. The vertex list is fixed by the subclass; the colour list is
      either assigned whole or built by the per-vertex loop. */
  class Polygon {
    const shape: Shape
    var vertices: seq<real>
    var colors: seq<real>

    constructor (shape: Shape)
      ensures this.shape == shape
      ensures vertices == VertexTable(shape) && colors == ColorTable(shape)
    {
      this.shape := shape;
      vertices := VertexTable(shape);
      colors := [];
      new;
      if shape.Infield? || shape.Base? {
        colors := ColorTable(shape);
      } else if PushesColors(shape) {
        PushColors(VertexColor(shape));
      }
    }

    /** The colour loop of the Outfield, HomePlate, PitchingRubber and StrikeZone
        constructors: four components pushed per vertex. */
    method PushColors(rgba: seq<real>)
      requires |rgba| == ColorSize && colors == []
      modifies this
      ensures vertices == old(vertices)
      ensures colors == Tile(rgba, Iterations(|vertices|))
    {
      var i := 0;
      while (i as real) < VerticesCount()
        invariant vertices == old(vertices)
        invariant 0 <= i <= Iterations(|vertices|)
        invariant colors == Tile(rgba, i)
      {
        colors := colors + [rgba[0]];
        colors := colors + [rgba[1]];
        colors := colors + [rgba[2]];
        colors := colors + [rgba[3]];
        i := i + 1;
      }
    }

    function VerticesCount(): (n: real)
      reads this
      ensures n * 3.0 == |vertices| as real
    {
      VerticesCountOf(vertices)
    }

    function ColorCount(): (n: real)
      reads this
      ensures n * 4.0 == |colors| as real
    {
      ColorCountOf(colors)
    }
  }

  /** The Baseball mesh: a sphere of 30 latitude and 30 longitude bands. */
  const BaseballBands: nat := 30

  class Baseball {
    var indexDataSize: int
    /** The contents uploaded to the Uint16 element buffer. */
    var indexBuffer: seq<int>

    /** Builds the vertex arrays and the index list, records the index count and keeps
        the index list as the element buffer's contents. Every entry names one of the
        31 * 31 = 961 vertices and so fits a Uint16 element. */
    /** The recorded index count is the number of entries in the element buffer. */
    ghost predicate Valid()
      reads this
    {
      indexDataSize == |indexBuffer|
    }

    constructor ()
      ensures Valid()
      ensures indexDataSize == |indexBuffer| == 6 * BaseballBands * BaseballBands == 5400
      ensures forall x :: x in indexBuffer ==> 0 <= x < 961 && x < 65536
    {
      var normalLength, textureLength, positionLength, indexData := Sphere.Mesh(BaseballBands, BaseballBands);
      indexDataSize := |indexData|;
      indexBuffer := indexData;
    }

    function IndexDataSize(): (n: int)
      reads this
      requires Valid()
      ensures n == |indexBuffer|
    {
      indexDataSize
    }
  }
}
