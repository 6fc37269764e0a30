/**
 The biomes around the camera with Gaussian blend weights: kernel weights along each axis, cell weights
 grouped by biome, the heaviest few kept and normalised. Floats are modelled as reals.
 */
module BiomeBlend {
  import opened Wrappers

  const SPAN := 6
  const SLOTS := 4
  const QUART_BLOCKS := 4

  function Kernel(i: nat): real
    requires i <= SPAN
  {
    [0.0, 1.0, 4.0, 6.0, 4.0, 1.0, 0.0][i]
  }

  datatype Coordinate = NotFinite | Finite(value: real)

  // ---- One axis ----

  const I64_MIN := -0x8000_0000_0000_0000
  const I64_MAX := 0x7FFF_FFFF_FFFF_FFFF

  // The first quart sampled is `base` - 2; `weights` are those of the quarts sampled from there.
  datatype Axis = Axis(base: int, weights: seq<real>)

  function Quart(v: real): real {
    (v - 2.0) / 4.0
  }

  function Fraction(v: real): (f: real)
    ensures 0.0 <= f < 1.0
  {
    Quart(v) - Quart(v).Floor as real
  }

  // The cast from a float saturates.
  function Saturated(n: int): int {
    if n < I64_MIN then I64_MIN else if I64_MAX < n then I64_MAX else n
  }

  function AxisOf(v: real): (axis: Axis)
    ensures |axis.weights| == SPAN
  {
    Axis(Saturated(Quart(v).Floor), seq(SPAN, i requires 0 <= i < SPAN => Kernel(i + 1) + Fraction(v) * (Kernel(i) - Kernel(i + 1))))
  }

  // The block of the i-th quart, when neither step leaves 64 bits and the result fits 32.
  function Block(base: int, i: nat): Option<int> {
    var quart := base + i - 2;
    if quart < I64_MIN || I64_MAX < quart then None
    else if quart * QUART_BLOCKS < I64_MIN || I64_MAX < quart * QUART_BLOCKS then None
    else if quart * QUART_BLOCKS < -0x8000_0000 || 0x7FFF_FFFF < quart * QUART_BLOCKS then None
    else Some(quart * QUART_BLOCKS)
  }

  // ---- The cells ----

  datatype Axes = Axes(x: Axis, y: Axis, z: Axis)

  type Biomes = (int, int, int) -> Option<nat>

  predicate Shaped(axes: Axes) {
    |axes.x.weights| == SPAN && |axes.y.weights| == SPAN && |axes.z.weights| == SPAN
  }

  // A cell without a biome contributes nothing.
  datatype Cell = Cell(weight: real, biome: Option<nat>)

  function BiomeOf(axes: Axes, biomes: Biomes, weight: real, x: nat, y: nat, z: nat): Option<nat> {
    var (a, b, c) := (Block(axes.x.base, x), Block(axes.y.base, y), Block(axes.z.base, z));
    if weight <= 0.0 || a.None? || b.None? || c.None? then None else biomes(a.value, b.value, c.value)
  }

  function CellAt(axes: Axes, biomes: Biomes, x: nat, y: nat, z: nat): Cell
    requires Shaped(axes) && x < SPAN && y < SPAN && z < SPAN
  {
    var weight := axes.x.weights[x] * axes.y.weights[y] * axes.z.weights[z];
    Cell(weight, BiomeOf(axes, biomes, weight, x, y, z))
  }

  // The first n cells of a row, the first n rows of a plane, the first n planes.
  function Row(axes: Axes, biomes: Biomes, x: nat, y: nat, n: nat): seq<Cell>
    requires Shaped(axes) && x < SPAN && y < SPAN && n <= SPAN
  {
    if n == 0 then [] else Row(axes, biomes, x, y, n - 1) + [CellAt(axes, biomes, x, y, n - 1)]
  }

  function Plane(axes: Axes, biomes: Biomes, x: nat, n: nat): seq<Cell>
    requires Shaped(axes) && x < SPAN && n <= SPAN
  {
    if n == 0 then [] else Plane(axes, biomes, x, n - 1) + Row(axes, biomes, x, n - 1, SPAN)
  }

  function Cells(axes: Axes, biomes: Biomes, n: nat): seq<Cell>
    requires Shaped(axes) && n <= SPAN
  {
    if n == 0 then [] else Cells(axes, biomes, n - 1) + Plane(axes, biomes, n - 1, SPAN)
  }

  // ---- Grouping, keeping and normalising ----

  type Totals = seq<(nat, real)>

  function Add(totals: Totals, biome: nat, weight: real): Totals {
    if totals == [] then [(biome, weight)]
    else if totals[0].0 == biome then [(biome, totals[0].1 + weight)] + totals[1..]
    else [totals[0]] + Add(totals[1..], biome, weight)
  }

  function AddCell(totals: Totals, c: Cell): Totals {
    if c.biome.None? then totals else Add(totals, c.biome.value, c.weight)
  }

  function Grouped(cells: seq<Cell>): Totals {
    if cells == [] then [] else AddCell(Grouped(cells[..|cells| - 1]), cells[|cells| - 1])
  }

  // Heaviest first; equal weights stay in the order they were met.
  function Insert(t: (nat, real), sorted: Totals): Totals {
    if sorted == [] || t.1 >= sorted[0].1 then [t] + sorted else [sorted[0]] + Insert(t, sorted[1..])
  }

  function Sorted(totals: Totals): Totals {
    if totals == [] then [] else Insert(totals[0], Sorted(totals[1..]))
  }

  function Truncated(totals: Totals): Totals {
    if |totals| <= SLOTS then totals else totals[..SLOTS]
  }

  function Sum(totals: Totals): real {
    if totals == [] then 0.0 else totals[0].1 + Sum(totals[1..])
  }

  function Normalised(kept: Totals): Totals
    requires kept != [] ==> Sum(kept) != 0.0
  {
    seq(|kept|, i requires 0 <= i < |kept| => (kept[i].0, kept[i].1 / Sum(kept)))
  }

  function Padding(n: nat): Totals {
    seq(n, i => (0, 0.0))
  }

  // ---- The program ----

  method AddTo(totals: Totals, biome: nat, weight: real) returns (next: Totals)
    ensures next == Add(totals, biome, weight)
  {
    var i := 0;
    while i < |totals| && totals[i].0 != biome
      invariant i <= |totals|
      invariant Add(totals, biome, weight) == totals[..i] + Add(totals[i..], biome, weight)
    {
      assert totals[i..][1..] == totals[i + 1..];
      assert totals[..i] + ([totals[i]] + Add(totals[i + 1..], biome, weight)) == totals[..i + 1] + Add(totals[i + 1..], biome, weight);
      i := i + 1;
    }
    if i < |totals| {
      next := totals[i := (biome, totals[i].1 + weight)];
      assert totals[i..][1..] == totals[i + 1..];
    } else {
      next := totals + [(biome, weight)];
    }
  }

  lemma GroupedMore(cells: seq<Cell>, c: Cell)
    ensures Grouped(cells + [c]) == AddCell(Grouped(cells), c)
  {
    assert (cells + [c])[..|cells|] == cells;
  }

  lemma NothingGrouped()
    ensures Grouped([]) == []
  {
  }

  method TakeCell(totals: Totals, axes: Axes, biomes: Biomes, x: nat, y: nat, z: nat) returns (next: Totals)
    requires Shaped(axes) && x < SPAN && y < SPAN && z < SPAN
    ensures next == AddCell(totals, CellAt(axes, biomes, x, y, z))
  {
    next := totals;
    var weight := axes.x.weights[x] * axes.y.weights[y] * axes.z.weights[z];
    assert CellAt(axes, biomes, x, y, z) == Cell(weight, BiomeOf(axes, biomes, weight, x, y, z));
    if weight <= 0.0 {
      return;
    }
    var a, b, c := Block(axes.x.base, x), Block(axes.y.base, y), Block(axes.z.base, z);
    if a.None? || b.None? || c.None? {
      return;
    }
    var biome := biomes(a.value, b.value, c.value);
    if biome.None? {
      return;
    }
    next := AddTo(totals, biome.value, weight);
  }

  // The innermost loop; `before` is what has been gathered so far.
  method GatherRow(ghost before: seq<Cell>, was: Totals, axes: Axes, biomes: Biomes, x: nat, y: nat) returns (totals: Totals)
    requires Shaped(axes) && x < SPAN && y < SPAN && was == Grouped(before)
    ensures totals == Grouped(before + Row(axes, biomes, x, y, SPAN))
  {
    totals := was;
    assert before + [] == before;
    for z: nat := 0 to SPAN
      invariant totals == Grouped(before + Row(axes, biomes, x, y, z))
    {
      totals := TakeCell(totals, axes, biomes, x, y, z);
      GroupedMore(before + Row(axes, biomes, x, y, z), CellAt(axes, biomes, x, y, z));
      assert before + Row(axes, biomes, x, y, z) + [CellAt(axes, biomes, x, y, z)] == before + Row(axes, biomes, x, y, z + 1);
    }
  }

  method Gather(axes: Axes, biomes: Biomes) returns (totals: Totals)
    requires Shaped(axes)
    ensures totals == Grouped(Cells(axes, biomes, SPAN))
  {
    hide Grouped, Row;
    totals := [];
    NothingGrouped();
    for x: nat := 0 to SPAN
      invariant totals == Grouped(Cells(axes, biomes, x))
    {
      ghost var planes := Cells(axes, biomes, x);
      assert planes + [] == planes;
      for y: nat := 0 to SPAN
        invariant totals == Grouped(planes + Plane(axes, biomes, x, y))
      {
        totals := GatherRow(planes + Plane(axes, biomes, x, y), totals, axes, biomes, x, y);
        assert planes + Plane(axes, biomes, x, y) + Row(axes, biomes, x, y, SPAN) == planes + Plane(axes, biomes, x, y + 1);
      }
    }
  }

  method Normalise(kept: Totals) returns (slots: Totals)
    requires kept != [] ==> Sum(kept) != 0.0
    ensures slots == Normalised(kept)
  {
    var sum := Sum(kept);
    slots := [];
    var i := 0;
    while i < |kept|
      invariant i <= |kept| && slots == Normalised(kept)[..i]
    {
      slots := slots + [(kept[i].0, kept[i].1 / sum)];
      i := i + 1;
    }
  }

  method SkyBiomes(x: Coordinate, y: Coordinate, z: Coordinate, biomes: Biomes) returns (slots: Totals)
    ensures slots == if x.Finite? && y.Finite? && z.Finite? then Blended(x.value, y.value, z.value, biomes) else Padding(SLOTS)
  {
    if x.NotFinite? || y.NotFinite? || z.NotFinite? {
      return Padding(SLOTS);
    }
    var totals := Gather(Axes(AxisOf(x.value), AxisOf(y.value), AxisOf(z.value)), biomes);
    KeptIsPositive(x.value, y.value, z.value, biomes);
    var kept := Truncated(Sorted(totals));
    slots := Normalise(kept);
    slots := slots + Padding(SLOTS - |slots|);
  }

  // ---- The kernel is a partition of unity ----

  function Prefix(weights: seq<real>, n: nat): real
    requires n <= |weights|
  {
    if n == 0 then 0.0 else Prefix(weights, n - 1) + weights[n - 1]
  }

  predicate Kernelled(axis: Axis) {
    && |axis.weights| == SPAN && Prefix(axis.weights, SPAN) == 16.0
    && forall i :: 0 <= i < SPAN ==> axis.weights[i] >= 0.0
  }

  // Wherever the camera is within its quart, the weights along an axis are nonnegative and sum to 16.
  lemma AxisSums(v: real)
    ensures Kernelled(AxisOf(v))
  {
    var f, w := Fraction(v), AxisOf(v).weights;
    assert w[0] == 1.0 - f && w[5] == f;
    assert w[1] == 4.0 - 3.0 * f && w[4] == 1.0 + 3.0 * f;
    assert w[2] == 6.0 - 2.0 * f && w[3] == 4.0 + 2.0 * f;
    assert Prefix(w, 1) == Prefix(w, 0) + w[0] && Prefix(w, 2) == Prefix(w, 1) + w[1];
    assert Prefix(w, 3) == Prefix(w, 2) + w[2] && Prefix(w, 4) == Prefix(w, 3) + w[3];
    assert Prefix(w, 5) == Prefix(w, 4) + w[4] && Prefix(w, 6) == Prefix(w, 5) + w[5];
  }

  // The weight of all cells, of those with a biome, and of those with one given biome.
  function AllWeight(cells: seq<Cell>): real {
    if cells == [] then 0.0 else AllWeight(cells[..|cells| - 1]) + cells[|cells| - 1].weight
  }

  function Available(cells: seq<Cell>): real {
    if cells == [] then 0.0
    else Available(cells[..|cells| - 1]) + if cells[|cells| - 1].biome.Some? then cells[|cells| - 1].weight else 0.0
  }

  function WeightOf(cells: seq<Cell>, biome: nat): real {
    if cells == [] then 0.0
    else WeightOf(cells[..|cells| - 1], biome) + if cells[|cells| - 1].biome == Some(biome) then cells[|cells| - 1].weight else 0.0
  }

  lemma {:induction false} WeightJoins(a: seq<Cell>, b: seq<Cell>)
    ensures AllWeight(a + b) == AllWeight(a) + AllWeight(b)
  {
    if b == [] {
      assert a + b == a;
    } else {
      WeightJoins(a, b[..|b| - 1]);
      assert (a + b)[..|a + b| - 1] == a + b[..|b| - 1];
    }
  }

  lemma NothingWeighs()
    ensures AllWeight([]) == 0.0
  {
  }

  lemma Factors(k: real, a: real, b: real)
    ensures k * a + k * b == k * (a + b)
  {
  }

  lemma {:induction false} RowWeighs(axes: Axes, biomes: Biomes, x: nat, y: nat, n: nat)
    requires Shaped(axes) && x < SPAN && y < SPAN && n <= SPAN
    ensures AllWeight(Row(axes, biomes, x, y, n)) == axes.x.weights[x] * axes.y.weights[y] * Prefix(axes.z.weights, n)
  {
    if n > 0 {
      RowWeighs(axes, biomes, x, y, n - 1);
      WeightJoins(Row(axes, biomes, x, y, n - 1), [CellAt(axes, biomes, x, y, n - 1)]);
      Factors(axes.x.weights[x] * axes.y.weights[y], Prefix(axes.z.weights, n - 1), axes.z.weights[n - 1]);
    }
  }

  lemma Regroups(a: real, b: real, p: real)
    ensures a * b * 16.0 + a * 16.0 * p == a * 16.0 * (p + b)
  {
  }

  lemma {:induction false} PlaneWeighs(axes: Axes, biomes: Biomes, x: nat, n: nat)
    requires Shaped(axes) && Kernelled(axes.z) && x < SPAN && n <= SPAN
    ensures AllWeight(Plane(axes, biomes, x, n)) == axes.x.weights[x] * 16.0 * Prefix(axes.y.weights, n)
  {
    hide AllWeight, Row;
    if n > 0 {
      PlaneWeighs(axes, biomes, x, n - 1);
      RowWeighs(axes, biomes, x, n - 1, SPAN);
      WeightJoins(Plane(axes, biomes, x, n - 1), Row(axes, biomes, x, n - 1, SPAN));
      Regroups(axes.x.weights[x], axes.y.weights[n - 1], Prefix(axes.y.weights, n - 1));
    } else {
      NothingWeighs();
    }
  }

  lemma FullPlaneWeighs(axes: Axes, biomes: Biomes, x: nat)
    requires Shaped(axes) && Kernelled(axes.y) && Kernelled(axes.z) && x < SPAN
    ensures AllWeight(Plane(axes, biomes, x, SPAN)) == 256.0 * axes.x.weights[x]
  {
    hide AllWeight, Plane;
    PlaneWeighs(axes, biomes, x, SPAN);
  }

  lemma {:induction false} CellsWeigh(axes: Axes, biomes: Biomes, n: nat)
    requires Shaped(axes) && Kernelled(axes.y) && Kernelled(axes.z) && n <= SPAN
    ensures AllWeight(Cells(axes, biomes, n)) == 256.0 * Prefix(axes.x.weights, n)
  {
    hide AllWeight, Plane, Kernelled;
    if n > 0 {
      CellsWeigh(axes, biomes, n - 1);
      FullPlaneWeighs(axes, biomes, n - 1);
      WeightJoins(Cells(axes, biomes, n - 1), Plane(axes, biomes, n - 1, SPAN));
    } else {
      NothingWeighs();
    }
  }

  function Around(x: real, y: real, z: real, biomes: Biomes): seq<Cell> {
    Cells(Axes(AxisOf(x), AxisOf(y), AxisOf(z)), biomes, SPAN)
  }

  // Around every position the cells weigh 4096 together.
  lemma CellsWeigh4096(x: real, y: real, z: real, biomes: Biomes)
    ensures AllWeight(Around(x, y, z, biomes)) == 4096.0
  {
    AxisSums(x);
    AxisSums(y);
    AxisSums(z);
    CellsWeigh(Axes(AxisOf(x), AxisOf(y), AxisOf(z)), biomes, SPAN);
  }

  // ---- Grouping ----

  function Names(totals: Totals): set<nat> {
    if totals == [] then {} else {totals[0].0} + Names(totals[1..])
  }

  predicate Distinct(totals: Totals) {
    totals == [] || (totals[0].0 !in Names(totals[1..]) && Distinct(totals[1..]))
  }

  predicate AllPositive(totals: Totals) {
    totals == [] || (totals[0].1 > 0.0 && AllPositive(totals[1..]))
  }

  predicate Descending(totals: Totals) {
    |totals| < 2 || (totals[0].1 >= totals[1].1 && Descending(totals[1..]))
  }

  function At(totals: Totals, biome: nat): real {
    if totals == [] then 0.0 else if totals[0].0 == biome then totals[0].1 else At(totals[1..], biome)
  }

  lemma {:induction false} AddGroups(totals: Totals, biome: nat, weight: real)
    requires Distinct(totals) && AllPositive(totals) && weight > 0.0
    ensures var next := Add(totals, biome, weight);
            Distinct(next) && AllPositive(next) && Names(next) == Names(totals) + {biome} && Sum(next) == Sum(totals) + weight
  {
    if totals != [] && totals[0].0 != biome {
      AddGroups(totals[1..], biome, weight);
    }
  }

  lemma {:induction false} AddAt(totals: Totals, biome: nat, weight: real, b: nat)
    requires biome in Names(totals) || At(totals, biome) == 0.0
    ensures At(Add(totals, biome, weight), b) == At(totals, b) + if b == biome then weight else 0.0
  {
    if totals != [] && totals[0].0 != biome {
      AddAt(totals[1..], biome, weight, b);
    }
  }

  lemma {:induction false} AtNowhere(totals: Totals, biome: nat)
    requires biome !in Names(totals)
    ensures At(totals, biome) == 0.0
  {
    if totals != [] {
      AtNowhere(totals[1..], biome);
    }
  }

  predicate Weighs(cells: seq<Cell>) {
    forall i :: 0 <= i < |cells| ==> cells[i].biome.Some? ==> cells[i].weight > 0.0
  }

  // Grouping names each biome once, with exactly the weight of its cells, and loses no weight.
  lemma {:induction false} GroupingConserves(cells: seq<Cell>, b: nat)
    requires Weighs(cells)
    ensures var totals := Grouped(cells);
            Distinct(totals) && AllPositive(totals) && Sum(totals) == Available(cells) && At(totals, b) == WeightOf(cells, b)
  {
    if cells != [] {
      var before, c := Grouped(cells[..|cells| - 1]), cells[|cells| - 1];
      GroupingConserves(cells[..|cells| - 1], b);
      if c.biome.Some? {
        AddGroups(before, c.biome.value, c.weight);
        if c.biome.value !in Names(before) {
          AtNowhere(before, c.biome.value);
        }
        AddAt(before, c.biome.value, c.weight, b);
      }
    }
  }

  // ---- Keeping the heaviest ----

  lemma {:induction false} InsertSorts(t: (nat, real), sorted: Totals, b: nat)
    requires Descending(sorted) && Distinct(sorted) && AllPositive(sorted) && t.0 !in Names(sorted) && t.1 > 0.0
    ensures var next := Insert(t, sorted);
            && Descending(next) && Distinct(next) && AllPositive(next) && Names(next) == {t.0} + Names(sorted)
            && At(next, b) == if b == t.0 then t.1 else At(sorted, b)
  {
    if sorted != [] && !(t.1 >= sorted[0].1) {
      InsertSorts(t, sorted[1..], b);
      var next := Insert(t, sorted);
      assert next[1..] == Insert(t, sorted[1..]);
    } else {
      assert Insert(t, sorted)[1..] == sorted;
    }
  }

  lemma {:induction false} SortSorts(totals: Totals, b: nat)
    requires Distinct(totals) && AllPositive(totals)
    ensures var sorted := Sorted(totals);
            && Descending(sorted) && Distinct(sorted) && AllPositive(sorted) && Names(sorted) == Names(totals)
            && At(sorted, b) == At(totals, b)
  {
    if totals != [] {
      SortSorts(totals[1..], b);
      InsertSorts(totals[0], Sorted(totals[1..]), b);
    }
  }

  lemma {:induction false} Ordered(totals: Totals, i: nat, j: nat)
    requires Descending(totals) && i <= j < |totals|
    ensures totals[i].1 >= totals[j].1
  {
    if i > 0 {
      Ordered(totals[1..], i - 1, j - 1);
    } else if j > 0 {
      Ordered(totals[1..], 0, j - 1);
    }
  }

  lemma {:induction false} NameAt(totals: Totals, i: nat)
    requires i < |totals|
    ensures totals[i].0 in Names(totals)
    ensures Distinct(totals) ==> At(totals, totals[i].0) == totals[i].1
    ensures AllPositive(totals) ==> totals[i].1 > 0.0
  {
    if i > 0 {
      NameAt(totals[1..], i - 1);
    }
  }

  lemma {:induction false} Apart(totals: Totals, i: nat, j: nat)
    requires Distinct(totals) && i < j < |totals|
    ensures totals[i].0 != totals[j].0
  {
    if i > 0 {
      Apart(totals[1..], i - 1, j - 1);
    } else {
      NameAt(totals[1..], j - 1);
    }
  }

  lemma {:induction false} IndexOf(totals: Totals, b: nat) returns (i: nat)
    requires b in Names(totals)
    ensures i < |totals| && totals[i].0 == b && totals[i].1 == At(totals, b)
  {
    if totals[0].0 == b {
      i := 0;
    } else {
      i := IndexOf(totals[1..], b);
      i := i + 1;
    }
  }

  lemma {:induction false} IndexPast(totals: Totals, b: nat, n: nat) returns (i: nat)
    requires n <= |totals| && b in Names(totals) && b !in Names(totals[..n])
    ensures n <= i < |totals| && totals[i].0 == b && totals[i].1 == At(totals, b)
  {
    if n == 0 {
      i := IndexOf(totals, b);
    } else {
      assert totals[..n][1..] == totals[1..][..n - 1];
      i := IndexPast(totals[1..], b, n - 1);
      i := i + 1;
    }
  }

  lemma {:induction false} PrefixKeeps(totals: Totals, n: nat)
    requires n <= |totals| && AllPositive(totals)
    ensures AllPositive(totals[..n])
  {
    if n > 0 {
      PrefixKeeps(totals[1..], n - 1);
      assert totals[..n][1..] == totals[1..][..n - 1];
    }
  }

  function KeptOf(cells: seq<Cell>): Totals {
    Truncated(Sorted(Grouped(cells)))
  }

  // What is kept: distinct biomes with the weight of their cells, heaviest first.
  lemma KeepsOwnWeights(cells: seq<Cell>, i: nat, j: nat)
    requires Weighs(cells) && i < j <= |KeptOf(cells)|
    ensures var kept := KeptOf(cells);
            && kept[i].1 == WeightOf(cells, kept[i].0) > 0.0
            && (j < |kept| ==> kept[i].0 != kept[j].0 && kept[i].1 >= kept[j].1)
  {
    var kept, sorted := KeptOf(cells), Sorted(Grouped(cells));
    assert kept[i] == sorted[i];
    GroupingConserves(cells, kept[i].0);
    SortSorts(Grouped(cells), kept[i].0);
    NameAt(sorted, i);
    if j < |kept| {
      Apart(sorted, i, j);
      Ordered(sorted, i, j);
    }
  }

  // A biome that is present and not kept weighs no more than any that is, and there was no room for it.
  lemma DropsTheLightest(cells: seq<Cell>, b: nat, k: nat)
    requires Weighs(cells) && WeightOf(cells, b) != 0.0
    requires b !in Names(KeptOf(cells))
    ensures |KeptOf(cells)| == SLOTS
    ensures k < SLOTS ==> WeightOf(cells, b) <= KeptOf(cells)[k].1
  {
    var kept, sorted := KeptOf(cells), Sorted(Grouped(cells));
    GroupingConserves(cells, b);
    SortSorts(Grouped(cells), b);
    if b !in Names(sorted) {
      AtNowhere(sorted, b);
    }
    assert kept == sorted[..|kept|];
    var j := IndexPast(sorted, b, |kept|);
    if k < SLOTS {
      Ordered(sorted, k, j);
    }
  }

  // ---- The result ----

  lemma {:induction false} SumPositive(totals: Totals)
    requires AllPositive(totals)
    ensures Sum(totals) >= 0.0 && (totals != [] ==> Sum(totals) > 0.0)
  {
    if totals != [] {
      SumPositive(totals[1..]);
    }
  }

  lemma {:induction false} RowsWeigh(axes: Axes, biomes: Biomes, x: nat, y: nat, n: nat)
    requires Shaped(axes) && x < SPAN && y < SPAN && n <= SPAN
    ensures Weighs(Row(axes, biomes, x, y, n))
  {
    if n > 0 {
      RowsWeigh(axes, biomes, x, y, n - 1);
      assert CellAt(axes, biomes, x, y, n - 1).biome.Some? ==> CellAt(axes, biomes, x, y, n - 1).weight > 0.0;
    }
  }

  lemma {:induction false} PlanesWeigh(axes: Axes, biomes: Biomes, x: nat, n: nat)
    requires Shaped(axes) && x < SPAN && n <= SPAN
    ensures Weighs(Plane(axes, biomes, x, n))
  {
    if n > 0 {
      PlanesWeigh(axes, biomes, x, n - 1);
      RowsWeigh(axes, biomes, x, n - 1, SPAN);
    }
  }

  lemma {:induction false} AvailableCellsWeigh(axes: Axes, biomes: Biomes, n: nat)
    requires Shaped(axes) && n <= SPAN
    ensures Weighs(Cells(axes, biomes, n))
  {
    if n > 0 {
      AvailableCellsWeigh(axes, biomes, n - 1);
      PlanesWeigh(axes, biomes, n - 1, SPAN);
    }
  }

  function Kept(x: real, y: real, z: real, biomes: Biomes): Totals {
    KeptOf(Around(x, y, z, biomes))
  }

  lemma KeptIsPositive(x: real, y: real, z: real, biomes: Biomes)
    ensures Weighs(Around(x, y, z, biomes))
    ensures Kept(x, y, z, biomes) != [] ==> Sum(Kept(x, y, z, biomes)) > 0.0
  {
    var cells := Around(x, y, z, biomes);
    AvailableCellsWeigh(Axes(AxisOf(x), AxisOf(y), AxisOf(z)), biomes, SPAN);
    GroupingConserves(cells, 0);
    SortSorts(Grouped(cells), 0);
    if |Sorted(Grouped(cells))| > SLOTS {
      PrefixKeeps(Sorted(Grouped(cells)), SLOTS);
    }
    SumPositive(KeptOf(cells));
  }

  function Blended(x: real, y: real, z: real, biomes: Biomes): (slots: Totals)
    ensures |slots| == SLOTS
  {
    KeptIsPositive(x, y, z, biomes);
    Normalised(Kept(x, y, z, biomes)) + Padding(SLOTS - |Kept(x, y, z, biomes)|)
  }

  function Scaled(totals: Totals, divisor: real): Totals
    requires divisor != 0.0
  {
    seq(|totals|, i requires 0 <= i < |totals| => (totals[i].0, totals[i].1 / divisor))
  }

  lemma Splits(a: real, b: real, s: real)
    requires s != 0.0
    ensures a / s + b / s == (a + b) / s
  {
  }

  lemma {:induction false} ScaledSums(totals: Totals, divisor: real)
    requires divisor != 0.0
    ensures Sum(Scaled(totals, divisor)) == Sum(totals) / divisor
  {
    if totals != [] {
      ScaledSums(totals[1..], divisor);
      assert Scaled(totals, divisor)[1..] == Scaled(totals[1..], divisor);
      Splits(totals[0].1, Sum(totals[1..]), divisor);
    }
  }

  lemma {:induction false} SumPadded(totals: Totals, n: nat)
    ensures Sum(totals + Padding(n)) == Sum(totals)
    decreases |totals|, n
  {
    if totals != [] {
      SumPadded(totals[1..], n);
      assert (totals + Padding(n))[1..] == totals[1..] + Padding(n);
    } else if n > 0 {
      SumPadded([], n - 1);
      assert totals + Padding(n) == Padding(n) && Padding(n)[1..] == Padding(n - 1) == [] + Padding(n - 1);
    }
  }

  lemma Whole(s: real)
    requires s != 0.0
    ensures s / s == 1.0
  {
  }

  lemma EmptyExactlyWhen(cells: seq<Cell>)
    requires Weighs(cells)
    ensures KeptOf(cells) == [] <==> Available(cells) == 0.0
    ensures Available(cells) >= 0.0
  {
    var totals := Grouped(cells);
    GroupingConserves(cells, 0);
    SumPositive(totals);
    SortSorts(totals, 0);
    assert totals == [] <==> Names(totals) == {};
    assert Sorted(totals) == [] <==> Names(Sorted(totals)) == {};
  }

  // Unless no cell has a biome, the slots sum to exactly one; then they are all zero.
  lemma SlotsSumToOne(x: real, y: real, z: real, biomes: Biomes)
    ensures var cells, slots := Around(x, y, z, biomes), Blended(x, y, z, biomes);
            && (Available(cells) != 0.0 ==> Sum(slots) == 1.0)
            && (Available(cells) == 0.0 ==> slots == Padding(SLOTS))
  {
    var kept := Kept(x, y, z, biomes);
    KeptIsPositive(x, y, z, biomes);
    EmptyExactlyWhen(Around(x, y, z, biomes));
    if kept != [] {
      SumPadded(Normalised(kept), SLOTS - |kept|);
      assert Normalised(kept) == Scaled(kept, Sum(kept));
      ScaledSums(kept, Sum(kept));
      Whole(Sum(kept));
    } else {
      assert Normalised(kept) + Padding(SLOTS) == Padding(SLOTS);
    }
  }

  lemma Divides(a: real, b: real, s: real)
    requires s > 0.0 && a >= b >= 0.0
    ensures a / s >= b / s >= 0.0 && (a > 0.0 ==> a / s > 0.0)
  {
  }

  // A slot with weight holds its biome's share of what was kept; slots are distinct and heaviest first.
  lemma SlotsAreShares(x: real, y: real, z: real, biomes: Biomes, i: nat, j: nat)
    requires i < j <= SLOTS
    ensures var cells, slots, total := Around(x, y, z, biomes), Blended(x, y, z, biomes), Sum(Kept(x, y, z, biomes));
            && (slots[i].1 > 0.0 ==> total > 0.0 && slots[i].1 == WeightOf(cells, slots[i].0) / total)
            && slots[i].1 >= 0.0
            && (j < SLOTS ==> slots[i].1 >= slots[j].1 && (slots[j].1 > 0.0 ==> slots[i].0 != slots[j].0))
  {
    var cells, kept := Around(x, y, z, biomes), Kept(x, y, z, biomes);
    KeptIsPositive(x, y, z, biomes);
    if i < |kept| {
      KeepsOwnWeights(cells, i, if j < |kept| then j else |kept|);
      Divides(kept[i].1, 0.0, Sum(kept));
      if j < |kept| {
        KeepsOwnWeights(cells, j, |kept|);
        Divides(kept[i].1, kept[j].1, Sum(kept));
      }
    }
  }
}
