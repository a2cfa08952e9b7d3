/** The brush mask volume (class LICBrushMask): a dense voxel grid with four
    float channels per voxel, x varying fastest, stamped by the brush tool and
    uploaded by the raycaster whenever its version counter has moved.
    Channel 0 is the "vector field" mask, channel 1 the "directional" mask. */
module BrushMask {
  import opened Version
  import opened MaskGeometry

  // ---------------------------------------------------------------------
  // What a stamp does to the buffer
  // ---------------------------------------------------------------------

  /** The new value of buffer position `i` after a stamp with boxes `outer`
      and `inner`: channel 0 of the outer box and channel 1 of the part of it
      inside the inner box take `value`; everything else keeps its value. */
  function StampValue(s: seq<real>, size: seq<nat>, outer: seq<Range>, inner: seq<Range>, value: real, i: nat): real
    requires Decodable(size) && |outer| == 3 && |inner| == 3 && i < |s|
  {
    var c := CellOf(size, i);
    if c.channel == 0 && InBox(c, outer) then value
    else if c.channel == 1 && InBox(c, outer) && InBox(c, inner) then value
    else s[i]
  }

  /** The buffer after stamping the boxes `outer` and `inner` with `value`. */
  function Stamp(s: seq<real>, size: seq<nat>, outer: seq<Range>, inner: seq<Range>, value: real): (t: seq<real>)
    requires Decodable(size) && |outer| == 3 && |inner| == 3
    ensures |t| == |s|
  {
    seq(|s|, i requires 0 <= i < |s| => StampValue(s, size, outer, inner, value, i))
  }

  /** Every voxel of the outer box has channel 0 set to the stamped value. */
  lemma StampSetsMask(s: seq<real>, size: seq<nat>, outer: seq<Range>, inner: seq<Range>, value: real,
                      x: nat, y: nat, z: nat)
    requires AllPositive(size) && |outer| == 3 && |inner| == 3 && |s| == 4 * Volume(size)
    requires x < size[0] && y < size[1] && z < size[2] && InBox(Cell(x, y, z, 0), outer)
    ensures 4 * Address(size, x, y, z) < |s| && Stamp(s, size, outer, inner, value)[4 * Address(size, x, y, z)] == value
  {
    CellOfAddress(size, x, y, z, 0);
  }

  /** Channel 1 of a voxel of the outer box takes the stamped value exactly
      when the voxel also lies in the inner box; otherwise it is unchanged. */
  lemma StampDirectional(s: seq<real>, size: seq<nat>, outer: seq<Range>, inner: seq<Range>, value: real,
                         x: nat, y: nat, z: nat)
    requires AllPositive(size) && |outer| == 3 && |inner| == 3 && |s| == 4 * Volume(size)
    requires x < size[0] && y < size[1] && z < size[2] && InBox(Cell(x, y, z, 1), outer)
    ensures 4 * Address(size, x, y, z) + 1 < |s|
    ensures Stamp(s, size, outer, inner, value)[4 * Address(size, x, y, z) + 1]
         == if InBox(Cell(x, y, z, 1), inner) then value else s[4 * Address(size, x, y, z) + 1]
  {
    CellOfAddress(size, x, y, z, 1);
  }

  /** Nothing else changes: channels 2 and 3 everywhere, and every channel
      of the voxels outside the outer box, keep their old values. */
  lemma StampKeepsRest(s: seq<real>, size: seq<nat>, outer: seq<Range>, inner: seq<Range>, value: real,
                       x: nat, y: nat, z: nat, ch: nat)
    requires AllPositive(size) && |outer| == 3 && |inner| == 3 && |s| == 4 * Volume(size)
    requires x < size[0] && y < size[1] && z < size[2] && ch < Channels
    requires ch >= 2 || !InBox(Cell(x, y, z, ch), outer)
    ensures 4 * Address(size, x, y, z) + ch < |s|
    ensures Stamp(s, size, outer, inner, value)[4 * Address(size, x, y, z) + ch] == s[4 * Address(size, x, y, z) + ch]
  {
    CellOfAddress(size, x, y, z, ch);
  }

  /** Stamping the same boxes with the same value twice gives the buffer of one stamp. */
  lemma StampIdempotent(s: seq<real>, size: seq<nat>, outer: seq<Range>, inner: seq<Range>, value: real)
    requires Decodable(size) && |outer| == 3 && |inner| == 3
    ensures Stamp(Stamp(s, size, outer, inner, value), size, outer, inner, value) == Stamp(s, size, outer, inner, value)
  {
    var t := Stamp(s, size, outer, inner, value);
    forall i | 0 <= i < |t|
      ensures StampValue(t, size, outer, inner, value, i) == t[i]
    {
    }
  }

  /** Voxel `c` comes before voxel `(x, y, z)` in the stamp's loop order
      (x outermost, z innermost). */
  predicate Before(c: Cell, x: int, y: int, z: int) {
    c.x < x || (c.x == x && (c.y < y || (c.y == y && c.z < z)))
  }

  /** Buffer position `i` once the stamp loops have reached voxel `(x, y, z)`. */
  ghost function StampedUpTo(s: seq<real>, size: seq<nat>, outer: seq<Range>, inner: seq<Range>, value: real,
                             i: nat, x: int, y: int, z: int): real
    requires Decodable(size) && |outer| == 3 && |inner| == 3 && i < |s|
  {
    if Before(CellOf(size, i), x, y, z) then StampValue(s, size, outer, inner, value, i) else s[i]
  }

  // ---------------------------------------------------------------------
  // semiSphereX
  // ---------------------------------------------------------------------

  /** The buffer after semiSphereX: all four channels of every voxel in the
      lower half along x (x < size[0]/2) become 1.0; the others keep their values. */
  function SemiSphere(s: seq<real>, size: seq<nat>): (t: seq<real>)
    requires |size| == 3
    ensures |t| == |s|
  {
    if Decodable(size) then
      seq(|s|, i requires 0 <= i < |s| => if CellOf(size, i).x < size[0] / 2 then 1.0 else s[i])
    else s
  }

  lemma SemiSphereFillsLowerHalf(s: seq<real>, size: seq<nat>, x: nat, y: nat, z: nat, ch: nat)
    requires |size| == 3 && |s| == 4 * Volume(size)
    requires x < size[0] / 2 && y < size[1] && z < size[2] && ch < Channels
    ensures 4 * Address(size, x, y, z) + ch < |s| && SemiSphere(s, size)[4 * Address(size, x, y, z) + ch] == 1.0
  {
    CellOfAddress(size, x, y, z, ch);
  }

  lemma SemiSphereKeepsUpperHalf(s: seq<real>, size: seq<nat>, x: nat, y: nat, z: nat, ch: nat)
    requires |size| == 3 && |s| == 4 * Volume(size)
    requires size[0] / 2 <= x < size[0] && y < size[1] && z < size[2] && ch < Channels
    ensures 4 * Address(size, x, y, z) + ch < |s|
    ensures SemiSphere(s, size)[4 * Address(size, x, y, z) + ch] == s[4 * Address(size, x, y, z) + ch]
  {
    CellOfAddress(size, x, y, z, ch);
  }

  /** Buffer position `i` once the semiSphereX loops have reached voxel `(x, y, z)`. */
  ghost function FilledUpTo(s: seq<real>, size: seq<nat>, i: nat, x: int, y: int, z: int): real
    requires Decodable(size) && i < |s|
  {
    var c := CellOf(size, i);
    if Before(c, x, y, z) && c.x < size[0] / 2 then 1.0 else s[i]
  }

  // ---------------------------------------------------------------------
  // The mask object
  // ---------------------------------------------------------------------

  class LICBrushMask {
    /** Four floats per voxel, voxel `Address(dataSize, x, y, z)` at `4*Address(..)`. */
    var data: array<real>
    var version: U32
    var dataSize: seq<nat>
    var domain: Box

    ghost predicate Valid()
      reads this
    {
      |dataSize| == 3 && WellFormed(domain) && data.Length == 4 * Volume(dataSize)
    }

    /** What updateMaskByBrush needs of the mask: voxels on every axis and a
        domain of positive extent on every axis. */
    predicate CanStamp()
      reads this
    {
      AllPositive(dataSize) && NonDegenerate(domain)
    }

    /** The default mask: 64x64x64 voxels over the unit cube, version 0. */
    constructor ()
      ensures Valid() && CanStamp() && fresh(data)
      ensures dataSize == [64, 64, 64] && domain == UnitCube() && version == 0
    {
      data := new real[4 * 64 * 64 * 64];
      version := 0;
      dataSize := [64, 64, 64];
      domain := UnitCube();
    }

    /** A mask of the given size, version 0. The source leaves the domain unset. */
    constructor Sized(sDataSize: seq<nat>)
      requires |sDataSize| == 3
      ensures Valid() && fresh(data)
      ensures dataSize == sDataSize && version == 0
    {
      data := new real[4 * Volume(sDataSize)];
      version := 0;
      dataSize := sDataSize;
      domain := UnitCube();
    }

    /** Reallocates the buffer for the new size, replaces the domain and bumps
        the version. The contents of the new buffer are not specified. */
    method Resize(sDataSize: seq<nat>, sDomain: Box)
      requires |sDataSize| == 3 && WellFormed(sDomain)
      modifies this
      ensures Valid() && fresh(data)
      ensures dataSize == sDataSize && domain == sDomain
      ensures version == Next(old(version))
    {
      data := new real[4 * Volume(sDataSize)];
      version := Next(version);
      domain := sDomain;
      dataSize := sDataSize;
    }

    function GetData(): (d: array<real>)
      reads this
      ensures d == data
    {
      data
    }

    /** The three sizes, as getSize() returns them. */
    function GetSizes(): (s: seq<nat>)
      reads this
      requires Valid()
      ensures |s| == 3 && s == dataSize
    {
      dataSize
    }

    /** getSize(idx): the size along axis `idx`, or 0 for an index outside 0..2. */
    function GetSize(idx: int): (n: nat)
      reads this
      requires Valid()
      ensures 0 <= idx < 3 ==> n == dataSize[idx]
      ensures !(0 <= idx < 3) ==> n == 0
    {
      if 0 <= idx < 3 then dataSize[idx] else 0
    }

    function GetDataVersion(): (v: U32)
      reads this
      ensures v == version
    {
      version
    }

    /** Sets all four channels of the voxels with x < size[0]/2 to 1.0 and bumps the version. */
    method SemiSphereX()
      requires Valid()
      modifies this, data
      ensures Valid() && data == old(data) && dataSize == old(dataSize) && domain == old(domain)
      ensures data[..] == SemiSphere(old(data[..]), dataSize)
      ensures version == Next(old(version))
    {
      ghost var s := data[..];
      assert !Decodable(dataSize) ==> Volume(dataSize) == 0;
      var nx, ny, nz := dataSize[0], dataSize[1], dataSize[2];
      var i := 0;
      while i < nx / 2
        invariant 0 <= i <= nx / 2
        invariant Decodable(dataSize) ==>
          forall k :: 0 <= k < data.Length ==> data[k] == FilledUpTo(s, dataSize, k, i, 0, 0)
        invariant !Decodable(dataSize) ==> data[..] == s
        modifies data
      {
        var j := 0;
        while j < ny
          invariant 0 <= j <= ny
          invariant Decodable(dataSize) ==>
            forall k :: 0 <= k < data.Length ==> data[k] == FilledUpTo(s, dataSize, k, i, j, 0)
          invariant !Decodable(dataSize) ==> data[..] == s
          modifies data
        {
          var l := 0;
          while l < nz
            invariant 0 <= l <= nz
            invariant forall k :: 0 <= k < data.Length ==> data[k] == FilledUpTo(s, dataSize, k, i, j, l)
            modifies data
          {
            var adr := Address(dataSize, i, j, l);
            CellOfAddress(dataSize, i, j, l, 0);
            CellOfAddress(dataSize, i, j, l, 1);
            CellOfAddress(dataSize, i, j, l, 2);
            CellOfAddress(dataSize, i, j, l, 3);
            data[4 * adr] := 1.0;
            data[4 * adr + 1] := 1.0;
            data[4 * adr + 2] := 1.0;
            data[4 * adr + 3] := 1.0;
            l := l + 1;
          }
          j := j + 1;
        }
        i := i + 1;
      }
      version := Next(version);
    }

    /** The per-axis outer and inner index ranges of a brush at `brushPos`
        (the first loop of updateMaskByBrush). */
    method BrushBoxes(brushPos: Point, brushSize: real) returns (outer: seq<Range>, inner: seq<Range>)
      requires Valid() && CanStamp() && |brushPos| == 3
      ensures outer == BrushRanges(dataSize, domain, brushPos, brushSize)
      ensures inner == BrushRanges(dataSize, domain, brushPos, InnerRatio * brushSize)
    {
      var nBrushSize := InnerRatio * brushSize;
      outer, inner := [], [];
      var dim := 0;
      while dim < 3
        invariant 0 <= dim <= 3 && |outer| == dim && |inner| == dim
        invariant forall d :: 0 <= d < dim ==>
          outer[d] == AxisRange(dataSize[d], domain.min[d], domain.max[d], brushPos[d], brushSize)
        invariant forall d :: 0 <= d < dim ==>
          inner[d] == AxisRange(dataSize[d], domain.min[d], domain.max[d], brushPos[d], nBrushSize)
      {
        var lo, hi, n := domain.min[dim], domain.max[dim], dataSize[dim];
        var vMin := Clamp(ToIndex(n, lo, hi, brushPos[dim] - brushSize), 0, n - 1);
        var nMin := Clamp(ToIndex(n, lo, hi, brushPos[dim] - nBrushSize), 0, n - 1);
        var vMax := Clamp(ToIndex(n, lo, hi, brushPos[dim] + brushSize), 0, n - 1);
        var nMax := Clamp(ToIndex(n, lo, hi, brushPos[dim] + nBrushSize), 0, n - 1);
        outer := outer + [Range(vMin, vMax)];
        inner := inner + [Range(nMin, nMax)];
        dim := dim + 1;
      }
    }

    /** The nested loops of updateMaskByBrush: writes `value` into channel 0
        over the outer box and into channel 1 where the inner box also holds. */
    method StampBoxes(outer: seq<Range>, inner: seq<Range>, value: real)
      requires Valid() && AllPositive(dataSize) && |outer| == 3 && |inner| == 3
      requires forall d :: 0 <= d < 3 ==> 0 <= outer[d].lo && outer[d].hi < dataSize[d]
      modifies data
      ensures data[..] == Stamp(old(data[..]), dataSize, outer, inner, value)
    {
      ghost var s := data[..];
      var x := outer[0].lo;
      while x <= outer[0].hi
        invariant outer[0].lo <= x
        invariant forall k :: 0 <= k < data.Length ==>
          data[k] == StampedUpTo(s, dataSize, outer, inner, value, k, x, outer[1].lo, outer[2].lo)
      {
        var y := outer[1].lo;
        while y <= outer[1].hi
          invariant outer[1].lo <= y
          invariant forall k :: 0 <= k < data.Length ==>
            data[k] == StampedUpTo(s, dataSize, outer, inner, value, k, x, y, outer[2].lo)
        {
          var z := outer[2].lo;
          while z <= outer[2].hi
            invariant outer[2].lo <= z
            invariant forall k :: 0 <= k < data.Length ==>
              data[k] == StampedUpTo(s, dataSize, outer, inner, value, k, x, y, z)
          {
            var adr := Address(dataSize, x, y, z);
            CellOfAddress(dataSize, x, y, z, 0);
            CellOfAddress(dataSize, x, y, z, 1);
            CellOfAddress(dataSize, x, y, z, 2);
            CellOfAddress(dataSize, x, y, z, 3);
            data[4 * adr] := value;
            if inner[0].lo <= x <= inner[0].hi && inner[1].lo <= y <= inner[1].hi && inner[2].lo <= z <= inner[2].hi {
              data[4 * adr + 1] := value;
            }
            z := z + 1;
          }
          y := y + 1;
        }
        x := x + 1;
      }
    }

    /** The brush stamp: channel 0 of every voxel in the outer box of radius
        `brushSize` around `brushPos`, and channel 1 of those also in the
        inner box of radius 0.4*brushSize, become `value`; then the version is
        bumped once. */
    method UpdateMaskByBrush(brushPos: Point, brushSize: real, value: real)
      requires Valid() && CanStamp() && |brushPos| == 3
      modifies this, data
      ensures Valid() && data == old(data) && dataSize == old(dataSize) && domain == old(domain)
      ensures data[..] == Stamp(old(data[..]), dataSize,
                                BrushRanges(dataSize, domain, brushPos, brushSize),
                                BrushRanges(dataSize, domain, brushPos, InnerRatio * brushSize), value)
      ensures version == Next(old(version))
    {
      var outer, inner := BrushBoxes(brushPos, brushSize);
      StampBoxes(outer, inner, value);
      version := Next(version);
    }
  }
}
