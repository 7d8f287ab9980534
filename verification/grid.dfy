/**
 * The world constants and the coordinate arithmetic: the linear chunk index
 * of a cell (getChunkIndex), the chunk creation order it inverts, and the
 * render-space centre of a cell (computePosition).
 */
module Grid {
  import opened Blocks

  /** The world constants: grid extents, strata depths, tile size and CHUNK_SIZE. */
  datatype Geometry = Geometry(
    gridSize: int,
    gridDepth: int,
    soilDepth: int,
    airDepth: int,
    tileSize: int,
    chunkX: int,
    chunkY: int,
    chunkZ: int)
  {
    predicate Valid()
    {
      gridSize > 0 && gridDepth > 0 && tileSize > 0 && chunkX > 0 && chunkY > 0 && chunkZ > 0
    }

    /** groundDepth - soilDepth, where groundDepth = gridDepth - airDepth. */
    function SoilStart(): int
    {
      gridDepth - airDepth - soilDepth
    }

    /** CHUNK_COUNT.x, .y and .z: the number of chunks along each axis. */
    function CountX(): (r: int)
      requires Valid()
      ensures r > 0 && (r - 1) * chunkX < gridSize <= r * chunkX
    {
      CeilDiv(gridSize, chunkX)
    }

    function CountY(): (r: int)
      requires Valid()
      ensures r > 0 && (r - 1) * chunkY < gridSize <= r * chunkY
    {
      CeilDiv(gridSize, chunkY)
    }

    function CountZ(): (r: int)
      requires Valid()
      ensures r > 0 && (r - 1) * chunkZ < gridDepth <= r * chunkZ
    {
      CeilDiv(gridDepth, chunkZ)
    }

    function ChunkTotal(): (r: int)
      requires Valid()
      ensures r > 0
    {
      MulPositive(CountX(), CountY());
      MulPositive(CountX() * CountY(), CountZ());
      CountX() * CountY() * CountZ()
    }

    /** The instance capacity of every chunk mesh. */
    function MaxInstances(): int
    {
      chunkX * chunkY * chunkZ
    }
  }

  /** 16 x 16 x 40 cells, soil from depth 40 - 16 - 4 = 20, tiles of 4 units, chunks of 8 x 8 x 40. */
  const Default: Geometry := Geometry(16, 40, 4, 16, 4, 8, 8, 40)

  /** Math.ceil(a / b) for a >= 0 and b > 0. */
  function CeilDiv(a: int, b: int): (r: int)
    requires a >= 0 && b > 0
    ensures r >= 0 && (r - 1) * b < a <= r * b
    ensures a > 0 ==> r > 0
  {
    var q := (a + b - 1) / b;
    assert a + b - 1 == q * b + (a + b - 1) % b;
    q
  }

  /** Chunk coordinates (cx, cy, cz) of the Chunk constructor. */
  datatype ChunkPos = ChunkPos(cx: int, cy: int, cz: int)

  predicate InBounds(g: Geometry, c: Coord)
  {
    0 <= c.i < g.gridSize && 0 <= c.j < g.gridSize && 0 <= c.k < g.gridDepth
  }

  predicate ChunkPosInRange(g: Geometry, p: ChunkPos)
    requires g.Valid()
  {
    0 <= p.cx < g.CountX() && 0 <= p.cy < g.CountY() && 0 <= p.cz < g.CountZ()
  }

  /** cx * CHUNK_COUNT.y * CHUNK_COUNT.z + cy * CHUNK_COUNT.z + cz. */
  function Linear(g: Geometry, p: ChunkPos): int
    requires g.Valid()
  {
    p.cx * g.CountY() * g.CountZ() + p.cy * g.CountZ() + p.cz
  }

  /** The chunk coordinates of a cell: floor division by CHUNK_SIZE on each axis. */
  function ChunkPosOf(g: Geometry, c: Coord): ChunkPos
    requires g.Valid()
  {
    ChunkPos(c.i / g.chunkX, c.j / g.chunkY, c.k / g.chunkZ)
  }

  /** getChunkIndex: no bounds check, defined for every integer cell. */
  function ChunkIndex(g: Geometry, c: Coord): int
    requires g.Valid()
  {
    Linear(g, ChunkPosOf(g, c))
  }

  /** The chunk coordinates of the n-th chunk created by the nested creation loops. */
  function Decode(g: Geometry, n: int): ChunkPos
    requires g.Valid()
  {
    ChunkPos(n / (g.CountY() * g.CountZ()), (n / g.CountZ()) % g.CountY(), n % g.CountZ())
  }

  /** The chunk's origin cell: chunk coordinates times CHUNK_SIZE. */
  function Origin(g: Geometry, p: ChunkPos): Coord
  {
    Coord(p.cx * g.chunkX, p.cy * g.chunkY, p.cz * g.chunkZ)
  }

  /** origin <= cell < origin + CHUNK_SIZE on every axis. */
  predicate InRegion(g: Geometry, p: ChunkPos, c: Coord)
  {
    var o := Origin(g, p);
    o.i <= c.i < o.i + g.chunkX && o.j <= c.j < o.j + g.chunkY && o.k <= c.k < o.k + g.chunkZ
  }

  lemma DivModBasics(a: int, b: int)
    requires b > 0
    ensures a == (a / b) * b + a % b && 0 <= a % b < b
  {
  }

  lemma DivModUnique(a: int, b: int, q: int, r: int)
    requires b > 0 && a == q * b + r && 0 <= r < b
    ensures a / b == q && a % b == r
  {
    var q', r' := a / b, a % b;
    DivModBasics(a, b);
    assert (q - q') * b == r' - r;
    if q > q' {
      MulMonotone(1, q - q', b);
      assert false;
    } else if q < q' {
      MulMonotone(1, q' - q, b);
      assert false;
    }
  }

  lemma MulMonotone(a: int, b: int, c: int)
    requires 0 <= a <= b && c >= 0
    ensures 0 <= a * c <= b * c
  {
  }

  lemma MulPositive(a: int, b: int)
    requires a > 0 && b > 0
    ensures a * b > 0
  {
    MulMonotone(1, a, b);
  }

  /** The low part cy * CZ + cz of a linear index lies in [0, CY * CZ). */
  lemma LowPart(cy: int, cz: int, countY: int, countZ: int)
    requires 0 <= cy < countY && 0 <= cz < countZ
    ensures 0 <= cy * countZ + cz < countY * countZ
  {
    MulMonotone(cy, countY - 1, countZ);
    assert (countY - 1) * countZ == countY * countZ - countZ;
  }

  /** Mixed-radix encoding of in-range digits lies in [0, X * Y * Z) and decodes back to the digits. */
  lemma EncodeInts(x: int, y: int, z: int, countX: int, countY: int, countZ: int)
    requires 0 <= x < countX && 0 <= y < countY && 0 <= z < countZ
    ensures 0 <= x * countY * countZ + y * countZ + z < countX * countY * countZ
    ensures var n := x * countY * countZ + y * countZ + z;
            n / (countY * countZ) == x && (n / countZ) % countY == y && n % countZ == z
  {
    var n := x * countY * countZ + y * countZ + z;
    var low := y * countZ + z;
    var yz := countY * countZ;
    LowPart(y, z, countY, countZ);
    MulPositive(countY, countZ);
    assert n == x * yz + low;
    DivModUnique(n, yz, x, low);
    assert n == (x * countY + y) * countZ + z;
    DivModUnique(n, countZ, x * countY + y, z);
    DivModUnique(x * countY + y, countY, x, y);
    MulMonotone(x, countX - 1, yz);
    assert (countX - 1) * yz == countX * countY * countZ - yz;
  }

  /** The linear index of in-range chunk coordinates lies in [0, total) and decodes back to them. */
  lemma LinearDecode(g: Geometry, p: ChunkPos)
    requires g.Valid() && ChunkPosInRange(g, p)
    ensures 0 <= Linear(g, p) < g.ChunkTotal()
    ensures Decode(g, Linear(g, p)) == p
  {
    EncodeInts(p.cx, p.cy, p.cz, g.CountX(), g.CountY(), g.CountZ());
  }

  /** Mixed-radix digits of n with radices (.., cy, cz) recombine to n. */
  lemma Digits(n: int, cy: int, cz: int)
    requires n >= 0 && cy > 0 && cz > 0
    ensures cy * cz > 0
    ensures n / (cy * cz) >= 0 && 0 <= (n / cz) % cy < cy && 0 <= n % cz < cz
    ensures n == n / (cy * cz) * cy * cz + (n / cz) % cy * cz + n % cz
  {
    MulPositive(cy, cz);
    var m := n / cz;
    DivModBasics(n, cz);
    DivModBasics(m, cy);
    var x := m / cy;
    assert m >= 0;
    assert n == (x * cy + m % cy) * cz + n % cz;
    assert n == x * (cy * cz) + (m % cy * cz + n % cz);
    LowPart(m % cy, n % cz, cy, cz);
    DivModUnique(n, cy * cz, x, m % cy * cz + n % cz);
  }

  /** Mixed-radix decoding of n in [0, X * Y * Z) gives in-range digits that encode back to n. */
  lemma DecodeInts(n: int, countX: int, countY: int, countZ: int)
    requires countX > 0 && countY > 0 && countZ > 0 && 0 <= n < countX * countY * countZ
    ensures 0 <= n / (countY * countZ) < countX && 0 <= (n / countZ) % countY < countY && 0 <= n % countZ < countZ
    ensures n / (countY * countZ) * countY * countZ + (n / countZ) % countY * countZ + n % countZ == n
  {
    Digits(n, countY, countZ);
    var x := n / (countY * countZ);
    if x >= countX {
      MulMonotone(countX, x, countY * countZ);
      assert false;
    }
  }

  /** Every index in [0, total) is the linear index of the in-range chunk coordinates it decodes to. */
  lemma DecodeLinear(g: Geometry, n: int)
    requires g.Valid() && 0 <= n < g.ChunkTotal()
    ensures ChunkPosInRange(g, Decode(g, n)) && Linear(g, Decode(g, n)) == n
  {
    DecodeInts(n, g.CountX(), g.CountY(), g.CountZ());
  }

  /**
   * getChunkIndex of an in-bounds cell is a valid index, and the chunk
   * created at that index contains the cell in its region.
   */
  lemma {:induction false} ChunkIndexInRange(g: Geometry, c: Coord)
    requires g.Valid() && InBounds(g, c)
    ensures 0 <= ChunkIndex(g, c) < g.ChunkTotal()
    ensures Decode(g, ChunkIndex(g, c)) == ChunkPosOf(g, c)
    ensures InRegion(g, Decode(g, ChunkIndex(g, c)), c)
  {
    var p := ChunkPosOf(g, c);
    AxisInRange(c.i, g.gridSize, g.chunkX);
    AxisInRange(c.j, g.gridSize, g.chunkY);
    AxisInRange(c.k, g.gridDepth, g.chunkZ);
    LinearDecode(g, p);
  }

  /** For 0 <= v < extent, floor(v / size) is a chunk coordinate below ceil(extent / size) whose cell range holds v. */
  lemma AxisInRange(v: int, extent: int, size: int)
    requires 0 <= v < extent && size > 0
    ensures 0 <= v / size < CeilDiv(extent, size)
    ensures (v / size) * size <= v < (v / size) * size + size
  {
    var q := v / size;
    assert v == q * size + v % size;
    var n := CeilDiv(extent, size);
    if q >= n {
      MulMonotone(n, q, size);
    }
  }

  /** A cell lies in the region of exactly the chunk whose coordinates ChunkPosOf computes. */
  lemma RegionOwner(g: Geometry, p: ChunkPos, c: Coord)
    requires g.Valid() && InRegion(g, p, c)
    ensures ChunkPosOf(g, c) == p
  {
    DivModUnique(c.i, g.chunkX, p.cx, c.i - p.cx * g.chunkX);
    DivModUnique(c.j, g.chunkY, p.cy, c.j - p.cy * g.chunkY);
    DivModUnique(c.k, g.chunkZ, p.cz, c.k - p.cz * g.chunkZ);
  }

  lemma DefaultGeometry()
    ensures Default.Valid() && Default.SoilStart() == 20
    ensures Default.CountX() == 2 && Default.CountY() == 2 && Default.CountZ() == 1 && Default.ChunkTotal() == 4
  {
  }

  /** A render-space position (x, y, z); y is the vertical axis. */
  datatype Position = Position(x: real, y: real, z: real)

  function HalfX(g: Geometry): real
  {
    (g.gridSize * g.tileSize) as real / 2.0 - g.tileSize as real / 2.0
  }

  function HalfY(g: Geometry): real
  {
    (g.gridDepth * g.tileSize) as real / 2.0 - g.tileSize as real / 2.0
  }

  /** computePosition: the centre of cell (i, j, k), with k mapped to the vertical y axis and j to z. */
  function ComputePosition(g: Geometry, c: Coord): Position
  {
    var t := g.tileSize as real;
    Position(
      c.i as real * t - HalfX(g) + t / 2.0,
      c.k as real * t - HalfY(g) + t / 2.0,
      c.j as real * t - HalfX(g) + t / 2.0)
  }

  /** The inverse of computePosition: the cell whose centre a position is. */
  function CellAt(g: Geometry, p: Position): Coord
    requires g.Valid()
  {
    var t := g.tileSize as real;
    Coord(
      ((p.x + HalfX(g) - t / 2.0) / t).Floor,
      ((p.z + HalfX(g) - t / 2.0) / t).Floor,
      ((p.y + HalfY(g) - t / 2.0) / t).Floor)
  }

  /** computePosition loses nothing: the cell can be recovered from its centre, so distinct cells never share a centre. */
  lemma PositionRoundTrip(g: Geometry, c: Coord)
    requires g.Valid()
    ensures CellAt(g, ComputePosition(g, c)) == c
  {
    var t := g.tileSize as real;
    var p := ComputePosition(g, c);
    Recover(c.i, t, HalfX(g), p.x);
    Recover(c.j, t, HalfX(g), p.z);
    Recover(c.k, t, HalfY(g), p.y);
  }

  /** Shifting a cell centre back and dividing by the (positive) tile size gives the cell index back. */
  lemma Recover(x: int, t: real, half: real, v: real)
    requires t > 0.0 && v == x as real * t - half + t / 2.0
    ensures ((v + half - t / 2.0) / t).Floor == x
  {
    assert v + half - t / 2.0 == x as real * t;
    assert (x as real * t) / t == x as real;
  }

  /** Neighbouring cells are exactly one tile apart along the matching render axis, and agree on the others. */
  lemma PositionSpacing(g: Geometry, c: Coord)
    ensures ComputePosition(g, Coord(c.i + 1, c.j, c.k)) == ComputePosition(g, c).(x := ComputePosition(g, c).x + g.tileSize as real)
    ensures ComputePosition(g, Coord(c.i, c.j + 1, c.k)) == ComputePosition(g, c).(z := ComputePosition(g, c).z + g.tileSize as real)
    ensures ComputePosition(g, Coord(c.i, c.j, c.k + 1)) == ComputePosition(g, c).(y := ComputePosition(g, c).y + g.tileSize as real)
  {
  }
}
