/** The UV-sphere mesh tables shared by the early ball (src/webgl-pitch.ts, 60 bands)
    and the Baseball mesh (src/objects.ts, 30 bands).

    A sphere of `lat` latitude bands and `long` longitude bands has (lat + 1) * (long + 1)
    vertices, numbered row by row. Each of the lat * long cells is drawn as two
    triangles, six indices per cell. The vertex positions and normals are sines and
    cosines and are not modelled; their array lengths and the texture coordinates,
    which are exact fractions, are. */
module Sphere {

  /** The six indices of the cell at row `latNum`, column `longNum`: the triangles
      (first, second, first + 1) and (second, second + 1, first + 1), where `second`
      is the vertex one row below `first`. */
  function Cell(long: nat, latNum: nat, longNum: nat): (c: seq<int>)
    ensures |c| == 6 && c[0] == latNum * (long + 1) + longNum
    ensures c[1] == c[0] + long + 1 && c[2] == c[0] + 1 && c[5] == c[2] && c[3] == c[1] && c[4] == c[1] + 1
  {
    var first := latNum * (long + 1) + longNum;
    var second := first + long + 1;
    [first, second, first + 1, second, second + 1, first + 1]
  }

  /** The cells of row `latNum` for columns 0 .. count - 1, in emission order. */
  function RowCells(long: nat, latNum: nat, count: nat): seq<int>
    decreases count
  {
    if count == 0 then [] else RowCells(long, latNum, count - 1) + Cell(long, latNum, count - 1)
  }

  /** The whole index list for rows 0 .. rows - 1. */
  function Grid(long: nat, rows: nat): seq<int>
    decreases rows
  {
    if rows == 0 then [] else Grid(long, rows - 1) + RowCells(long, rows - 1, long)
  }

  /** The number of vertices of a sphere with the given bands. */
  function VertexCount(lat: nat, long: nat): nat {
    (lat + 1) * (long + 1)
  }

  lemma {:induction false} RowCellsLength(long: nat, latNum: nat, count: nat)
    ensures |RowCells(long, latNum, count)| == 6 * count
    decreases count
  {
    if count > 0 {
      RowCellsLength(long, latNum, count - 1);
    }
  }

  /** Six indices per cell: the list has 6 * rows * long entries. */
  lemma {:induction false} GridLength(long: nat, rows: nat)
    ensures |Grid(long, rows)| == 6 * rows * long
    decreases rows
  {
    if rows > 0 {
      var r := rows - 1;
      GridLength(long, r);
      RowCellsLength(long, r, long);
      assert |Grid(long, rows)| == |Grid(long, r)| + |RowCells(long, r, long)|;
      assert 6 * rows == 6 * r + 6;
      AddSixRows(6 * r, long);
    }
  }

  /** (a + 6) * b == a * b + 6 * b, one row of six-index cells more. */
  lemma AddSixRows(a: nat, b: nat)
    ensures (a + 6) * b == a * b + 6 * b
  {
  }

  /** The largest index a cell of row latNum and column longNum < long can emit is
      second + 1, which is below (latNum + 2) * (long + 1). */
  lemma CellBelow(long: nat, latNum: nat, longNum: nat)
    requires longNum < long
    ensures forall x :: x in Cell(long, latNum, longNum) ==> 0 <= x < (latNum + 2) * (long + 1)
  {
    var c := Cell(long, latNum, longNum);
    assert (latNum + 2) * (long + 1) == latNum * (long + 1) + 2 * (long + 1);
  }

  lemma {:induction false} RowCellsBelow(long: nat, latNum: nat, count: nat)
    requires count <= long
    ensures forall x :: x in RowCells(long, latNum, count) ==> 0 <= x < (latNum + 2) * (long + 1)
    decreases count
  {
    if count > 0 {
      RowCellsBelow(long, latNum, count - 1);
      CellBelow(long, latNum, count - 1);
    }
  }

  /** Every index of the first `rows` rows names one of the (rows + 1) * (long + 1)
      vertices of those rows and the row below them. */
  lemma {:induction false} GridBelow(long: nat, rows: nat)
    ensures forall x :: x in Grid(long, rows) ==> 0 <= x < (rows + 1) * (long + 1)
    decreases rows
  {
    if rows > 0 {
      GridBelow(long, rows - 1);
      RowCellsBelow(long, rows - 1, long);
      assert rows * (long + 1) <= (rows + 1) * (long + 1);
    }
  }

  /** The index generation loop of the sphere: latNum over the bands, longNum over the
      bands, six pushes per cell. */
  method Indices(lat: nat, long: nat) returns (indices: seq<int>)
    ensures indices == Grid(long, lat)
    ensures |indices| == 6 * lat * long
    ensures forall x :: x in indices ==> 0 <= x < VertexCount(lat, long)
  {
    indices := [];
    var latNum := 0;
    while latNum < lat
      invariant 0 <= latNum <= lat
      invariant indices == Grid(long, latNum)
    {
      var longNum := 0;
      while longNum < long
        invariant 0 <= longNum <= long
        invariant indices == Grid(long, latNum) + RowCells(long, latNum, longNum)
      {
        var first := latNum * (long + 1) + longNum;
        var second := first + long + 1;
        indices := indices + [first, second, first + 1];
        indices := indices + [second, second + 1, first + 1];
        longNum := longNum + 1;
      }
      latNum := latNum + 1;
    }
    GridLength(long, lat);
    GridBelow(long, lat);
  }

  /** The texture coordinates of the vertices of rows 0 .. rows - 1: for each vertex
      the pair (1 - longNum / long, 1 - latNum / lat). */
  function TexRow(lat: nat, long: nat, latNum: nat, count: nat): seq<real>
    requires 0 < lat && 0 < long
    decreases count
  {
    if count == 0 then []
    else
      TexRow(lat, long, latNum, count - 1)
        + [1.0 - (count - 1) as real / long as real, 1.0 - latNum as real / lat as real]
  }

  function TexGrid(lat: nat, long: nat, rows: nat): seq<real>
    requires 0 < lat && 0 < long
    decreases rows
  {
    if rows == 0 then [] else TexGrid(lat, long, rows - 1) + TexRow(lat, long, rows - 1, long + 1)
  }

  /** 1 - a / b lies in [0, 1] when 0 <= a <= b. */
  lemma FractionComplementInUnit(a: nat, b: nat)
    requires 0 < b && a <= b
    ensures 0.0 <= 1.0 - a as real / b as real <= 1.0
  {
    var q := a as real / b as real;
    assert q * b as real == a as real;
    assert q <= 1.0 by {
      if q > 1.0 {
        assert q * b as real > b as real;
      }
    }
  }

  lemma {:induction false} TexRowShape(lat: nat, long: nat, latNum: nat, count: nat)
    requires 0 < lat && 0 < long && latNum <= lat && count <= long + 1
    ensures |TexRow(lat, long, latNum, count)| == 2 * count
    ensures forall u :: u in TexRow(lat, long, latNum, count) ==> 0.0 <= u <= 1.0
    decreases count
  {
    if count > 0 {
      TexRowShape(lat, long, latNum, count - 1);
      FractionComplementInUnit(count - 1, long);
      FractionComplementInUnit(latNum, lat);
    }
  }

  /** Two coordinates per vertex, each inside [0, 1]. */
  lemma {:induction false} TexGridShape(lat: nat, long: nat, rows: nat)
    requires 0 < lat && 0 < long && rows <= lat + 1
    ensures |TexGrid(lat, long, rows)| == 2 * rows * (long + 1)
    ensures forall u :: u in TexGrid(lat, long, rows) ==> 0.0 <= u <= 1.0
    decreases rows
  {
    if rows > 0 {
      TexGridShape(lat, long, rows - 1);
      TexRowShape(lat, long, rows - 1, long + 1);
      assert 2 * (rows - 1) * (long + 1) + 2 * (long + 1) == 2 * rows * (long + 1);
    }
  }

  /** The vertex loop of the sphere (latNum and longNum both run to the band count
      inclusive). Per vertex it pushes three normal components, two texture
      coordinates and three position components; the normal and position values are
      trigonometric, so only how many are pushed is kept. */
  method VertexArrays(lat: nat, long: nat) returns (normalLength: nat, textureCoords: seq<real>, positionLength: nat)
    requires 0 < lat && 0 < long
    ensures normalLength == 3 * VertexCount(lat, long) && positionLength == 3 * VertexCount(lat, long)
    ensures textureCoords == TexGrid(lat, long, lat + 1)
    ensures |textureCoords| == 2 * VertexCount(lat, long)
    ensures forall u :: u in textureCoords ==> 0.0 <= u <= 1.0
  {
    normalLength, positionLength := 0, 0;
    textureCoords := [];
    var latNum := 0;
    while latNum <= lat
      invariant 0 <= latNum <= lat + 1
      invariant normalLength == 3 * latNum * (long + 1) && positionLength == normalLength
      invariant textureCoords == TexGrid(lat, long, latNum)
    {
      var longNum := 0;
      while longNum <= long
        invariant 0 <= longNum <= long + 1
        invariant normalLength == 3 * latNum * (long + 1) + 3 * longNum && positionLength == normalLength
        invariant textureCoords == TexGrid(lat, long, latNum) + TexRow(lat, long, latNum, longNum)
      {
        var u := 1.0 - longNum as real / long as real;
        var v := 1.0 - latNum as real / lat as real;
        normalLength := normalLength + 3;
        textureCoords := textureCoords + [u, v];
        positionLength := positionLength + 3;
        longNum := longNum + 1;
      }
      assert 3 * latNum * (long + 1) + 3 * (long + 1) == 3 * (latNum + 1) * (long + 1);
      latNum := latNum + 1;
    }
    TexGridShape(lat, long, lat + 1);
  }

  /** Both loops of a sphere constructor, as the Baseball mesh and the early ball run
      them: the vertex arrays, then the index list. Stated without the recursive tables
      so that a caller with fixed band counts does not unfold them. */
  method Mesh(lat: nat, long: nat) returns (normalLength: nat, textureLength: nat, positionLength: nat, indices: seq<int>)
    requires 0 < lat && 0 < long
    ensures normalLength == positionLength == 3 * VertexCount(lat, long)
    ensures textureLength == 2 * VertexCount(lat, long)
    ensures |indices| == 6 * lat * long
    ensures forall x :: x in indices ==> 0 <= x < VertexCount(lat, long)
  {
    var textureCoords;
    normalLength, textureCoords, positionLength := VertexArrays(lat, long);
    textureLength := |textureCoords|;
    indices := Indices(lat, long);
  }
}
