/** Index arithmetic of the brush mask volume: where voxel (x, y, z) lives in
    the four-channel buffer (x varying fastest), and which voxel index range a
    brush of a given radius covers along each axis. */
module MaskGeometry {

  /** A point of Vrui space: three coordinates. */
  type Point = seq<real>

  /** Geometry::Box<Scalar,3>: per-axis lower and upper corner. */
  datatype Box = Box(min: seq<real>, max: seq<real>)

  /** An inclusive range of voxel indices along one axis (Geometry::Box<int,3>, one axis of it). */
  datatype Range = Range(lo: int, hi: int)

  /** One float of the buffer, named by its voxel coordinates and its channel. */
  datatype Cell = Cell(x: nat, y: nat, z: nat, channel: nat)

  /** Number of channels stored per voxel. */
  const Channels: nat := 4

  /** The directional (inner) box has 0.4 times the brush radius. */
  const InnerRatio: real := 0.4

  predicate WellFormed(b: Box) {
    |b.min| == 3 && |b.max| == 3
  }

  predicate NonDegenerate(b: Box) {
    WellFormed(b) && b.min[0] < b.max[0] && b.min[1] < b.max[1] && b.min[2] < b.max[2]
  }

  function UnitCube(): (b: Box)
    ensures NonDegenerate(b)
  {
    Box([0.0, 0.0, 0.0], [1.0, 1.0, 1.0])
  }

  /** The sizes along x and y are what decoding a buffer index divides by. */
  predicate Decodable(size: seq<nat>) {
    |size| == 3 && size[0] > 0 && size[1] > 0
  }

  predicate AllPositive(size: seq<nat>) {
    Decodable(size) && size[2] > 0
  }

  function Volume(size: seq<nat>): nat
    requires |size| == 3
  {
    size[0] * size[1] * size[2]
  }

  /** Voxel address `(y + z*size[1])*size[0] + x` of the mask buffer. */
  function Address(size: seq<nat>, x: nat, y: nat, z: nat): nat
    requires |size| == 3
  {
    (y + z * size[1]) * size[0] + x
  }

  /** The voxel and channel that buffer position `i` holds: the inverse of
      `4 * Address(size, x, y, z) + channel` (see CellOfAddress). */
  function CellOf(size: seq<nat>, i: nat): (c: Cell)
    requires Decodable(size)
    ensures c.x < size[0] && c.y < size[1] && c.channel < Channels
    ensures Address(size, c.x, c.y, c.z) == i / 4 && c.channel == i % 4
    ensures i < 4 * Volume(size) ==> c.z < size[2]
  {
    var c := Cell((i / 4) % size[0], (i / 4 / size[0]) % size[1], i / 4 / size[0] / size[1], i % 4);
    DecodeFacts(size, i, c);
    c
  }

  lemma DecodeFacts(size: seq<nat>, i: nat, c: Cell)
    requires Decodable(size)
    requires c == Cell((i / 4) % size[0], (i / 4 / size[0]) % size[1], i / 4 / size[0] / size[1], i % 4)
    ensures c.x < size[0] && c.y < size[1] && c.channel < Channels
    ensures Address(size, c.x, c.y, c.z) == i / 4 && c.channel == i % 4
    ensures i < 4 * Volume(size) ==> c.z < size[2]
  {
    var v := i / 4;
    var q := v / size[0];
    assert q * size[0] + v % size[0] == v;
    assert q % size[1] + (q / size[1]) * size[1] == q;
    if i < 4 * Volume(size) {
      assert v < size[0] * (size[1] * size[2]);
      DivBound(v, size[0], size[1] * size[2]);
      DivBound(q, size[1], size[2]);
    }
  }

  lemma DivBound(a: int, n: int, m: int)
    requires n > 0 && 0 <= a < n * m
    ensures a / n < m
  {
  }

  lemma MulAtLeast(k: int, n: int)
    requires k >= 1 && n > 0
    ensures k * n >= n
  {
  }

  lemma MulLe(a: nat, b: nat, n: nat)
    requires a <= b
    ensures a * n <= b * n
  {
  }

  lemma DivModOf(q: int, n: int, r: int)
    requires n > 0 && 0 <= r < n
    ensures (q * n + r) / n == q && (q * n + r) % n == r
  {
    var a := q * n + r;
    var q', r' := a / n, a % n;
    assert a == q' * n + r';
    assert (q - q') * n == r' - r;
    if q' < q {
      MulAtLeast(q - q', n);
    } else if q' > q {
      MulAtLeast(q' - q, n);
    }
  }

  lemma AddressBound(size: seq<nat>, x: nat, y: nat, z: nat)
    requires |size| == 3 && x < size[0] && y < size[1] && z < size[2]
    ensures Address(size, x, y, z) < Volume(size)
  {
    var nx, ny, nz := size[0], size[1], size[2];
    var q := y + z * ny;
    assert q < (z + 1) * ny;
    MulLe(z + 1, nz, ny);
    assert q + 1 <= ny * nz;
    MulLe(q + 1, ny * nz, nx);
    assert (q + 1) * nx == q * nx + nx;
  }

  /** Running off the end of an x row continues at the start of the next row. */
  lemma AddressRowCarry(size: seq<nat>, y: nat, z: nat)
    requires |size| == 3
    ensures Address(size, size[0], y, z) == Address(size, 0, y + 1, z)
  {
    assert (y + 1 + z * size[1]) * size[0] == (y + z * size[1]) * size[0] + size[0];
  }

  /** Running off the end of a y slice continues at the start of the next slice. */
  lemma AddressSliceCarry(size: seq<nat>, z: nat)
    requires |size| == 3
    ensures Address(size, 0, size[1], z) == Address(size, 0, 0, z + 1)
  {
    assert size[1] + z * size[1] == (z + 1) * size[1];
  }

  /** The voxel after the last slice is the end of the buffer. */
  lemma AddressEnd(size: seq<nat>)
    requires |size| == 3
    ensures Address(size, 0, 0, size[2]) == Volume(size)
  {
    assert (size[2] * size[1]) * size[0] == size[0] * size[1] * size[2];
  }

  /** Up to the end of the row of a voxel, the visited voxels lie within the grid. */
  lemma AddressWithin(size: seq<nat>, x: nat, y: nat, z: nat)
    requires |size| == 3 && x <= size[0] && y < size[1] && z < size[2]
    ensures Address(size, x, y, z) <= Volume(size)
  {
    var nx, ny, nz := size[0], size[1], size[2];
    var q := y + z * ny;
    assert q < (z + 1) * ny;
    MulLe(z + 1, nz, ny);
    MulLe(q + 1, ny * nz, nx);
    assert (q + 1) * nx == q * nx + nx;
  }

  /** Every channel of every voxel of the grid has its own place in the
      buffer, and decoding that place gives the voxel and channel back. */
  lemma CellOfAddress(size: seq<nat>, x: nat, y: nat, z: nat, ch: nat)
    requires |size| == 3 && x < size[0] && y < size[1] && z < size[2] && ch < Channels
    ensures 4 * Address(size, x, y, z) + ch < 4 * Volume(size)
    ensures CellOf(size, 4 * Address(size, x, y, z) + ch) == Cell(x, y, z, ch)
  {
    var nx, ny := size[0], size[1];
    AddressBound(size, x, y, z);
    DivModOf(Address(size, x, y, z), 4, ch);
    DivModOf(y + z * ny, nx, x);
    DivModOf(z, ny, y);
  }

  // ---------------------------------------------------------------------
  // Mapping brush coordinates to index ranges
  // ---------------------------------------------------------------------

  /** The C++ conversion of a floating-point value to `int`: truncation toward zero. */
  function Trunc(r: real): (n: int)
    ensures r >= 0.0 ==> 0 <= n && n as real <= r < n as real + 1.0
    ensures r < 0.0 ==> n <= 0 && n as real - 1.0 < r <= n as real
  {
    if r >= 0.0 then r.Floor else -((-r).Floor)
  }

  lemma TruncMonotone(a: real, b: real)
    requires a <= b
    ensures Trunc(a) <= Trunc(b)
  {
  }

  /** Math::clamp: `v` pulled into `[lo, hi]`. */
  function Clamp(v: int, lo: int, hi: int): (r: int)
    ensures lo <= hi ==> lo <= r <= hi
    ensures lo <= v <= hi ==> r == v
    ensures v <= lo ==> r == lo
    ensures lo <= hi && hi <= v ==> r == hi
  {
    if v <= lo then lo else if v >= hi then hi else v
  }

  /** `size*(coord-min)/(max-min)`, assigned to an `int`. */
  function ToIndex(size: nat, lo: real, hi: real, coord: real): int
    requires lo < hi
  {
    Trunc(size as real * (coord - lo) / (hi - lo))
  }

  lemma RealDivLe(a: real, b: real, e: real)
    requires e > 0.0 && a <= b
    ensures a / e <= b / e
  {
    var qa, qb := a / e, b / e;
    assert qa * e == a && qb * e == b;
  }

  lemma ToIndexMonotone(size: nat, lo: real, hi: real, a: real, b: real)
    requires lo < hi && a <= b
    ensures ToIndex(size, lo, hi, a) <= ToIndex(size, lo, hi, b)
  {
    var e := hi - lo;
    assert size as real * (a - lo) <= size as real * (b - lo);
    RealDivLe(size as real * (a - lo), size as real * (b - lo), e);
    TruncMonotone(size as real * (a - lo) / e, size as real * (b - lo) / e);
  }

  /** The index range that `[center - radius, center + radius]` covers along
      one axis of `size` voxels spanning `[lo, hi]`, each bound clamped to
      `[0, size-1]`. */
  function AxisRange(size: nat, lo: real, hi: real, center: real, radius: real): (r: Range)
    requires size > 0 && lo < hi
    ensures 0 <= r.lo < size && 0 <= r.hi < size
  {
    Range(Clamp(ToIndex(size, lo, hi, center - radius), 0, size - 1),
          Clamp(ToIndex(size, lo, hi, center + radius), 0, size - 1))
  }

  /** A brush of non-negative radius covers at least one index on every axis,
      wherever it is, even far outside the domain. */
  lemma AxisRangeNonEmpty(size: nat, lo: real, hi: real, center: real, radius: real)
    requires size > 0 && lo < hi && radius >= 0.0
    ensures AxisRange(size, lo, hi, center, radius).lo <= AxisRange(size, lo, hi, center, radius).hi
  {
    ToIndexMonotone(size, lo, hi, center - radius, center + radius);
  }

  /** The range of the inner (directional) radius lies inside that of the outer radius. */
  lemma InnerRangeWithinOuter(size: nat, lo: real, hi: real, center: real, radius: real)
    requires size > 0 && lo < hi && radius >= 0.0
    ensures AxisRange(size, lo, hi, center, radius).lo <= AxisRange(size, lo, hi, center, InnerRatio * radius).lo
    ensures AxisRange(size, lo, hi, center, InnerRatio * radius).hi <= AxisRange(size, lo, hi, center, radius).hi
  {
    ToIndexMonotone(size, lo, hi, center - radius, center - InnerRatio * radius);
    ToIndexMonotone(size, lo, hi, center + InnerRatio * radius, center + radius);
  }

  /** Clamp to edge: a brush entirely beyond the upper face of the domain
      along an axis covers exactly the last slab of that axis, and one
      entirely below the lower face exactly the first slab. */
  lemma FarOutsideClampsToEdge(size: nat, lo: real, hi: real, center: real, radius: real)
    requires size > 0 && lo < hi && radius >= 0.0
    ensures center - radius >= hi ==> AxisRange(size, lo, hi, center, radius) == Range(size - 1, size - 1)
    ensures center + radius <= lo ==> AxisRange(size, lo, hi, center, radius) == Range(0, 0)
  {
    ToIndexMonotone(size, lo, hi, center - radius, center + radius);
    if center - radius >= hi {
      ToIndexBeyondUpper(size, lo, hi, center - radius);
    }
    if center + radius <= lo {
      ToIndexBelowLower(size, lo, hi, center + radius);
    }
  }

  lemma ToIndexBeyondUpper(size: nat, lo: real, hi: real, coord: real)
    requires lo < hi && coord >= hi
    ensures ToIndex(size, lo, hi, coord) >= size
  {
    var v := size as real * (coord - lo) / (hi - lo);
    ScaledAtLeast(size as real, coord - lo, hi - lo);
    assert v >= size as real;
    TruncAtLeast(v, size);
    assert Trunc(v) >= size;
    assert ToIndex(size, lo, hi, coord) == Trunc(v);
  }

  lemma ScaledAtLeast(n: real, a: real, e: real)
    requires n >= 0.0 && e > 0.0 && a >= e
    ensures n * a / e >= n
  {
    RealMulLe(n, e, a);
    RealDivLe(n * e, n * a, e);
    RealMulDivCancel(n, e);
  }

  lemma TruncAtLeast(v: real, k: int)
    requires k >= 0 && v >= k as real
    ensures Trunc(v) >= k
  {
  }

  lemma RealMulLe(n: real, a: real, b: real)
    requires n >= 0.0 && a <= b
    ensures n * a <= n * b
  {
  }

  lemma RealMulDivCancel(n: real, e: real)
    requires e != 0.0
    ensures n * e / e == n
  {
  }

  lemma ToIndexBelowLower(size: nat, lo: real, hi: real, coord: real)
    requires lo < hi && coord <= lo
    ensures ToIndex(size, lo, hi, coord) <= 0
  {
    var e, n := hi - lo, size as real;
    assert n * (coord - lo) <= 0.0;
    RealDivLe(n * (coord - lo), 0.0, e);
  }

  /** The per-axis ranges of a brush of the given radius at `pos`. */
  function BrushRanges(size: seq<nat>, domain: Box, pos: Point, radius: real): (rs: seq<Range>)
    requires AllPositive(size) && NonDegenerate(domain) && |pos| == 3
    ensures |rs| == 3
    ensures forall d :: 0 <= d < 3 ==> 0 <= rs[d].lo < size[d] && 0 <= rs[d].hi < size[d]
  {
    seq(3, d requires 0 <= d < 3 => AxisRange(size[d], domain.min[d], domain.max[d], pos[d], radius))
  }

  /** Voxel `(c.x, c.y, c.z)` lies in the index box `rs` on all three axes. */
  predicate InBox(c: Cell, rs: seq<Range>)
    requires |rs| == 3
  {
    rs[0].lo <= c.x <= rs[0].hi && rs[1].lo <= c.y <= rs[1].hi && rs[2].lo <= c.z <= rs[2].hi
  }
}
