/**
 * The world's configuration and its sector grid: the (2K+1)^3 integer
 * triples in [-K, K]^3, enumerated x outermost, then y, then z innermost,
 * and the thin-instance buffer a sectorized mesh receives in that order.
 */
module SectorGrid {
  import opened Vectors

  /** Edge length of one sector (`World.Size`). */
  const Size: real := 1000.0
  const HalfSize: real := Size / 2.0

  /** Depth of the sector stack around the middle sector (`World.SectorIndexMax`). */
  const SectorIndexMax: int := 2
  const SectorsPerAxis: int := 2 * SectorIndexMax + 1
  /** `Math.pow(SectorIndexMax * 2 + 1, 3)`. */
  const SectorCount: int := SectorsPerAxis * SectorsPerAxis * SectorsPerAxis

  datatype SectorCoord = SectorCoord(x: int, y: int, z: int)

  predicate InRange(c: SectorCoord) {
    && -SectorIndexMax <= c.x <= SectorIndexMax
    && -SectorIndexMax <= c.y <= SectorIndexMax
    && -SectorIndexMax <= c.z <= SectorIndexMax
  }

  /** The position of `c` in the nested-loop enumeration. */
  function IndexOf(c: SectorCoord): int {
    (c.x + SectorIndexMax) * SectorsPerAxis * SectorsPerAxis
      + (c.y + SectorIndexMax) * SectorsPerAxis
      + (c.z + SectorIndexMax)
  }

  /** The triple the nested loops visit at step `i`. */
  function CoordAt(i: nat): SectorCoord {
    SectorCoord(i / (SectorsPerAxis * SectorsPerAxis) - SectorIndexMax,
                (i / SectorsPerAxis) % SectorsPerAxis - SectorIndexMax,
                i % SectorsPerAxis - SectorIndexMax)
  }

  /** The second argument the game passes with each instance: `(x + y + z) == 3 * SectorIndexMax`. */
  predicate RefreshFlag(c: SectorCoord) {
    c.x + c.y + c.z == 3 * SectorIndexMax
  }

  /** The translation of sector `c` for a sector edge of `scale` mesh units. */
  function Offset(c: SectorCoord, scale: real): Vec3 {
    Vec3(c.x as real * scale, c.y as real * scale, c.z as real * scale)
  }

  /** What the population loop writes into a mesh's instance buffer. */
  function SectorInstances(scale: real): (r: seq<InstanceWrite>)
    ensures |r| == SectorCount
  {
    seq(SectorCount, i requires 0 <= i < SectorCount =>
      InstanceWrite(Translation(Offset(CoordAt(i), scale)), RefreshFlag(CoordAt(i))))
  }

  lemma SectorCountIsCube()
    ensures SectorCount == (2 * SectorIndexMax + 1) * (2 * SectorIndexMax + 1) * (2 * SectorIndexMax + 1) == 125
  {
  }

  /** Every step of the enumeration visits a triple in range, and the index of that triple is the step. */
  lemma CoordAtInRange(i: nat)
    requires i < SectorCount
    ensures InRange(CoordAt(i)) && IndexOf(CoordAt(i)) == i
  {
    var q, r := i / 25, i % 25;
    assert i == q * 25 + r && 0 <= r < 25 && 0 <= q < 5;
    assert i / 5 == q * 5 + r / 5;
    assert (i / 5) % 5 == r / 5;
    assert i % 5 == r % 5;
    assert r == (r / 5) * 5 + r % 5;
  }

  /** Every triple in range is visited, exactly at step `IndexOf(c)`. */
  lemma IndexOfInRange(c: SectorCoord)
    requires InRange(c)
    ensures 0 <= IndexOf(c) < SectorCount && CoordAt(IndexOf(c)) == c
  {
    var i := IndexOf(c);
    assert i == (c.x + 2) * 25 + (c.y + 2) * 5 + (c.z + 2);
    assert i / 25 == c.x + 2;
    assert i / 5 == (c.x + 2) * 5 + (c.y + 2);
    assert (i / 5) % 5 == c.y + 2;
    assert i % 5 == c.z + 2;
  }

  /** No triple is visited twice. */
  lemma CoordAtInjective(i: nat, j: nat)
    requires i < SectorCount && j < SectorCount && CoordAt(i) == CoordAt(j)
    ensures i == j
  {
    CoordAtInRange(i);
    CoordAtInRange(j);
  }

  predicate LexLess(a: SectorCoord, b: SectorCoord) {
    a.x < b.x || (a.x == b.x && (a.y < b.y || (a.y == b.y && a.z < b.z)))
  }

  /** The enumeration is x outermost, then y, then z innermost. */
  lemma EnumerationOrder(i: nat, j: nat)
    requires i < j < SectorCount
    ensures LexLess(CoordAt(i), CoordAt(j))
  {
    CoordAtInRange(i);
    CoordAtInRange(j);
  }

  /** Within the grid only the far corner (K, K, K) satisfies the flag predicate. */
  lemma RefreshFlagOnlyAtFarCorner(c: SectorCoord)
    requires InRange(c)
    ensures RefreshFlag(c) <==> c == SectorCoord(SectorIndexMax, SectorIndexMax, SectorIndexMax)
  {
  }

  /** So in enumeration order the flag is raised on the last instance only. */
  lemma RefreshFlagOnlyOnLastInstance(i: nat)
    requires i < SectorCount
    ensures RefreshFlag(CoordAt(i)) <==> i == SectorCount - 1
  {
    CoordAtInRange(i);
    RefreshFlagOnlyAtFarCorner(CoordAt(i));
  }

  /** Instance `i` of the buffer is the translation of the `i`-th triple, flagged only if it is the last. */
  lemma SectorInstanceAt(scale: real, i: nat)
    requires i < SectorCount
    ensures var c := CoordAt(i);
      && InRange(c)
      && SectorInstances(scale)[i].matrix == Translation(Vec3(c.x as real * scale, c.y as real * scale, c.z as real * scale))
      && (SectorInstances(scale)[i].refresh <==> i == SectorCount - 1)
  {
    CoordAtInRange(i);
    RefreshFlagOnlyOnLastInstance(i);
  }

  /**
   * The triple loop shared by `World.Sectorize` and the constructor of the
   * second `World`: one `thinInstanceAdd` per triple, in nested order.
   */
  method AddSectorInstances(mesh: Mesh, scale: real)
    modifies mesh
    ensures mesh.scalingX == old(mesh.scalingX)
    ensures mesh.instances == old(mesh.instances) + SectorInstances(scale)
  {
    ghost var all := SectorInstances(scale);
    ghost var n := 0;
    var x := -SectorIndexMax;
    while x <= SectorIndexMax
      invariant -SectorIndexMax <= x <= SectorIndexMax + 1
      invariant n == (x + SectorIndexMax) * 25
      invariant mesh.scalingX == old(mesh.scalingX)
      invariant mesh.instances == old(mesh.instances) + all[..n]
    {
      var y := -SectorIndexMax;
      while y <= SectorIndexMax
        invariant -SectorIndexMax <= y <= SectorIndexMax + 1
        invariant n == (x + SectorIndexMax) * 25 + (y + SectorIndexMax) * 5
        invariant mesh.scalingX == old(mesh.scalingX)
        invariant mesh.instances == old(mesh.instances) + all[..n]
      {
        var z := -SectorIndexMax;
        while z <= SectorIndexMax
          invariant -SectorIndexMax <= z <= SectorIndexMax + 1
          invariant n == (x + SectorIndexMax) * 25 + (y + SectorIndexMax) * 5 + (z + SectorIndexMax)
          invariant mesh.scalingX == old(mesh.scalingX)
          invariant mesh.instances == old(mesh.instances) + all[..n]
        {
          var c := SectorCoord(x, y, z);
          IndexOfInRange(c);
          assert IndexOf(c) == n;
          assert all[..n + 1] == all[..n] + [all[n]];
          mesh.ThinInstanceAdd(Translation(Offset(c, scale)), (x + y + z) == 3 * SectorIndexMax);
          n := n + 1;
          z := z + 1;
        }
        y := y + 1;
      }
      x := x + 1;
    }
  }
}
