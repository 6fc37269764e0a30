/**
 Which blocks the blend samples and how much each counts, stated by distance: along an axis a quart counts by
 how far its centre is from the camera, in quarts, and every quart that counts is sampled.
 */
module BiomeSamples {
  import opened Wrappers
  import opened BiomeBlend

  // The kernel as a function of distance: 6 at the centre, 4, 1 and 0 one, two and three quarts away, and
  // straight lines in between.
  function Bell(d: real): real {
    var a := if d < 0.0 then -d else d;
    if a <= 1.0 then 6.0 - 2.0 * a
    else if a <= 2.0 then 4.0 - 3.0 * (a - 1.0)
    else if a <= 3.0 then 3.0 - a
    else 0.0
  }

  // From the camera at `v` to the centre of the quart that starts at block `b`, in quarts.
  function Distance(b: int, v: real): real {
    (b as real + 2.0 - v) / 4.0
  }

  // Where the i-th of the six quarts around `v` starts; `v` is between the centres of the third and the fourth.
  function QuartBlock(v: real, i: nat): int {
    4 * (((v - 2.0) / 4.0).Floor + i - 2)
  }

  // A block coordinate as the world takes it.
  predicate InWorld(b: int) {
    -0x8000_0000 <= b < 0x8000_0000
  }

  lemma SampledBlock(v: real, i: nat)
    requires i < SPAN
    ensures Block(AxisOf(v).base, i) == if InWorld(QuartBlock(v, i)) then Some(QuartBlock(v, i)) else None
  {
  }

  lemma SampledWeight(v: real, i: nat)
    requires i < SPAN
    ensures AxisOf(v).weights[i] == Bell(Distance(QuartBlock(v, i), v))
  {
    var q := (v - 2.0) / 4.0;
    var f := q - q.Floor as real;
    var b := QuartBlock(v, i);
    assert Distance(b, v) == (i as real - 2.0) - f by {
      assert b as real == 4.0 * (q.Floor as real + i as real - 2.0);
    }
    var w := AxisOf(v).weights;
    assert w[0] == 1.0 - f && w[1] == 4.0 - 3.0 * f && w[2] == 6.0 - 2.0 * f;
    assert w[3] == 4.0 + 2.0 * f && w[4] == 1.0 + 3.0 * f && w[5] == f;
    assert i in {0, 1, 2, 3, 4, 5};
  }

  // Every sampled block starts a quart and counts by the distance of its centre.
  lemma SamplesCountByDistance(v: real, i: nat, b: int)
    requires i < SPAN && Block(AxisOf(v).base, i) == Some(b)
    ensures b % 4 == 0 && AxisOf(v).weights[i] == Bell(Distance(b, v)) && -3.0 <= Distance(b, v) <= 3.0
  {
    SampledBlock(v, i);
    SampledWeight(v, i);
    var q := (v - 2.0) / 4.0;
    assert b == 4 * (q.Floor + i - 2);
    assert b as real == 4.0 * (q.Floor as real + i as real - 2.0);
  }

  // No quart that counts is left out, and none is sampled twice.
  lemma EveryQuartThatCounts(v: real, b: int) returns (i: nat)
    requires b % 4 == 0 && InWorld(b) && Bell(Distance(b, v)) > 0.0
    ensures i < SPAN && Block(AxisOf(v).base, i) == Some(b)
    ensures forall j: nat :: j < SPAN && Block(AxisOf(v).base, j) == Some(b) ==> j == i
  {
    var q := (v - 2.0) / 4.0;
    assert b as real == 4.0 * (b / 4) as real;
    assert Distance(b, v) == (b / 4) as real - q;
    i := b / 4 - q.Floor + 2;
    SampledBlock(v, i);
    forall j: nat | j < SPAN && Block(AxisOf(v).base, j) == Some(b) ensures j == i {
      SampledBlock(v, j);
    }
  }

  // ---- The cells of a position, in the order they are walked ----

  lemma {:induction false} RowAt(axes: Axes, biomes: Biomes, x: nat, y: nat, n: nat, z: nat)
    requires Shaped(axes) && x < SPAN && y < SPAN && n <= SPAN && z < n
    ensures |Row(axes, biomes, x, y, n)| == n && Row(axes, biomes, x, y, n)[z] == CellAt(axes, biomes, x, y, z)
  {
    if n == 1 {
      assert Row(axes, biomes, x, y, 0) == [];
    } else {
      RowAt(axes, biomes, x, y, n - 1, if z < n - 1 then z else 0);
    }
  }

  lemma {:induction false} PlaneAt(axes: Axes, biomes: Biomes, x: nat, n: nat, y: nat, z: nat)
    requires Shaped(axes) && x < SPAN && n <= SPAN && y < n && z < SPAN
    ensures |Plane(axes, biomes, x, n)| == 6 * n && Plane(axes, biomes, x, n)[6 * y + z] == CellAt(axes, biomes, x, y, z)
  {
    RowAt(axes, biomes, x, n - 1, SPAN, z);
    if n == 1 {
      assert Plane(axes, biomes, x, 0) == [];
    } else {
      PlaneAt(axes, biomes, x, n - 1, if y < n - 1 then y else 0, z);
    }
  }

  lemma {:induction false} CellsAt(axes: Axes, biomes: Biomes, n: nat, x: nat, y: nat, z: nat)
    requires Shaped(axes) && n <= SPAN && x < n && y < SPAN && z < SPAN
    ensures |Cells(axes, biomes, n)| == 36 * n && Cells(axes, biomes, n)[36 * x + 6 * y + z] == CellAt(axes, biomes, x, y, z)
  {
    PlaneAt(axes, biomes, n - 1, SPAN, y, z);
    if n == 1 {
      assert Cells(axes, biomes, 0) == [];
    } else {
      CellsAt(axes, biomes, n - 1, if x < n - 1 then x else 0, y, z);
    }
  }

  // What a block around the position contributes: the product of its three bells.
  function Contribution(x: real, y: real, z: real, a: int, b: int, c: int): real {
    Bell(Distance(a, x)) * Bell(Distance(b, y)) * Bell(Distance(c, z))
  }

  // Each of the 216 cells is a block around the position, with its contribution and, if that is anything, the
  // biome the world has there; a cell outside the world has no biome.
  lemma CellsAreBlocks(x: real, y: real, z: real, biomes: Biomes, i: nat, j: nat, k: nat)
    requires i < SPAN && j < SPAN && k < SPAN
    ensures var a, b, c := QuartBlock(x, i), QuartBlock(y, j), QuartBlock(z, k);
            var cells := Around(x, y, z, biomes);
            && |cells| == 216 && cells[36 * i + 6 * j + k].weight == Contribution(x, y, z, a, b, c)
            && cells[36 * i + 6 * j + k].biome ==
                 if InWorld(a) && InWorld(b) && InWorld(c) && Contribution(x, y, z, a, b, c) > 0.0 then biomes(a, b, c) else None
  {
    hide Bell, Distance, QuartBlock, AxisOf, Block, Cells;
    var axes := Axes(AxisOf(x), AxisOf(y), AxisOf(z));
    CellsAt(axes, biomes, SPAN, i, j, k);
    SampledWeight(x, i);
    SampledWeight(y, j);
    SampledWeight(z, k);
    SampledBlock(x, i);
    SampledBlock(y, j);
    SampledBlock(z, k);
  }

  // A block that contributes is one of the cells.
  lemma EveryBlockThatCounts(x: real, y: real, z: real, biomes: Biomes, a: int, b: int, c: int) returns (n: nat)
    requires a % 4 == 0 && b % 4 == 0 && c % 4 == 0 && InWorld(a) && InWorld(b) && InWorld(c)
    requires Contribution(x, y, z, a, b, c) > 0.0
    ensures n < |Around(x, y, z, biomes)| && Around(x, y, z, biomes)[n] == Cell(Contribution(x, y, z, a, b, c), biomes(a, b, c))
  {
    Factors3(Bell(Distance(a, x)), Bell(Distance(b, y)), Bell(Distance(c, z)));
    var i := EveryQuartThatCounts(x, a);
    var j := EveryQuartThatCounts(y, b);
    var k := EveryQuartThatCounts(z, c);
    hide Bell, Distance;
    SampledBlock(x, i);
    SampledBlock(y, j);
    SampledBlock(z, k);
    CellsAreBlocks(x, y, z, biomes, i, j, k);
    n := 36 * i + 6 * j + k;
  }

  lemma Factors3(p: real, q: real, r: real)
    requires p >= 0.0 && q >= 0.0 && r >= 0.0 && p * q * r > 0.0
    ensures p > 0.0 && q > 0.0 && r > 0.0
  {
  }
}
