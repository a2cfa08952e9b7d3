/** The volume encoder of the raycaster (LICRaycaster::paddingData): a
    three-channel vector field becomes a four-channel texture holding each
    vector's direction remapped into [0,1] and its magnitude normalised by
    the largest magnitude in the field. Lengths are taken as an input
    `lens`, tied to the vectors by `Magnitudes`, instead of being computed
    with a square root. */
module Padding {
  import opened MaskGeometry

  /** Lengths below this count as the zero vector. */
  const NearZero: real := 0.00001

  /** `len` is the Euclidean length of (x, y, z). */
  predicate IsLength(len: real, x: real, y: real, z: real) {
    len >= 0.0 && len * len == x * x + y * y + z * z
  }

  /** `lens[a]` is the length of the vector held at `data[3*a..3*a+3]`. */
  predicate Magnitudes(data: seq<real>, lens: seq<real>) {
    && |data| == 3 * |lens|
    && forall a :: 0 <= a < |lens| ==> IsLength(lens[a], data[3 * a], data[3 * a + 1], data[3 * a + 2])
  }

  /** The magnitude the first pass keeps for a vector of length `len`. */
  function Stored(len: real): real {
    if len < NearZero then 0.0 else len
  }

  /** The direction channel for component `c` of a vector of length `len`. */
  function Direction(c: real, len: real): real {
    if len < NearZero then 0.5 else 0.5 * c / len + 0.5
  }

  /** std::max(a, b). */
  function Max(a: real, b: real): real {
    if a < b then b else a
  }

  /** Vrui's Math::clamp on reals. */
  function ClampReal(v: real, lo: real, hi: real): real {
    if v <= lo then lo else if v >= hi then hi else v
  }

  /** The running maximum `maxLen` after the first pass has visited the
      vectors of `lens` in order, starting from 0. */
  function MaxStored(lens: seq<real>): real {
    if |lens| == 0 then 0.0 else Max(Stored(lens[|lens| - 1]), MaxStored(lens[..|lens| - 1]))
  }

  /** What the first pass writes at texture index `i`. */
  function FirstPass(data: seq<real>, lens: seq<real>, i: nat): real
    requires |data| == 3 * |lens| && i < 4 * |lens|
  {
    var a, k := i / 4, i % 4;
    if k < 3 then Direction(data[3 * a + k], lens[a]) else Stored(lens[a])
  }

  /** The texture paddingData returns. The source divides by the maximum
      with no guard, so an all-zero field (maximum 0) is excluded. */
  function Encode(data: seq<real>, lens: seq<real>): (out: seq<real>)
    requires |data| == 3 * |lens| && MaxStored(lens) > 0.0
    ensures |out| == 4 * |lens|
  {
    seq(4 * |lens|, i requires 0 <= i < 4 * |lens| =>
      if i % 4 < 3 then FirstPass(data, lens, i)
      else ClampReal(FirstPass(data, lens, i) / MaxStored(lens), 0.0, 1.0))
  }

  /** The running maximum is an upper bound of every stored magnitude, and
      is never negative. */
  lemma {:induction false} MaxStoredIsUpperBound(lens: seq<real>)
    ensures MaxStored(lens) >= 0.0
    ensures forall a :: 0 <= a < |lens| ==> Stored(lens[a]) <= MaxStored(lens)
  {
    if |lens| > 0 {
      var front := lens[..|lens| - 1];
      MaxStoredIsUpperBound(front);
      forall a | 0 <= a < |lens|
        ensures Stored(lens[a]) <= MaxStored(lens)
      {
        if a < |lens| - 1 {
          assert lens[a] == front[a];
        }
      }
    }
  }

  /** The running maximum of a non-empty field is the stored magnitude of
      one of its vectors. */
  lemma {:induction false} MaxStoredIsAttained(lens: seq<real>)
    requires |lens| > 0
    ensures exists a :: 0 <= a < |lens| && Stored(lens[a]) == MaxStored(lens)
  {
    var last := |lens| - 1;
    var front := lens[..last];
    if Stored(lens[last]) < MaxStored(front) {
      MaxStoredIsAttained(front);
      var a :| 0 <= a < |front| && Stored(front[a]) == MaxStored(front);
      assert lens[a] == front[a];
    } else {
      assert Stored(lens[last]) == MaxStored(lens);
    }
  }

  /** Extending the visited prefix by one vector is one std::max step. */
  lemma MaxStoredStep(lens: seq<real>, n: nat)
    requires n < |lens|
    ensures MaxStored(lens[..n + 1]) == Max(Stored(lens[n]), MaxStored(lens[..n]))
  {
    assert lens[..n + 1][..n] == lens[..n];
  }

  lemma PositiveProduct(a: real, b: real)
    requires a > 0.0 && b > 0.0
    ensures a * b > 0.0
  {
  }

  lemma DifferenceOfSquares(c: real, l: real)
    ensures (c - l) * (c + l) == c * c - l * l
  {
  }

  lemma SquareNonNegative(u: real)
    ensures u * u >= 0.0
  {
  }

  lemma ZeroDiv(m: real)
    requires m != 0.0
    ensures 0.0 / m == 0.0
  {
  }

  lemma DivSelf(m: real)
    requires m != 0.0
    ensures m / m == 1.0
  {
  }

  lemma DivAtMostOne(c: real, len: real)
    requires len > 0.0 && c <= len
    ensures c / len <= 1.0
  {
  }

  lemma DivAtLeastMinusOne(c: real, len: real)
    requires len > 0.0 && -len <= c
    ensures -1.0 <= c / len
  {
  }

  /** A square no larger than len*len bounds the base by len. */
  lemma SquareWithin(c: real, len: real)
    requires len >= 0.0 && c * c <= len * len
    ensures -len <= c <= len
  {
    if c > len {
      PositiveProduct(c - len, c + len);
      DifferenceOfSquares(c, len);
      assert false;
    } else if c < -len {
      PositiveProduct(-c - len, -c + len);
      DifferenceOfSquares(-c, len);
      assert false;
    }
  }

  /** A component of a vector lies within its length. */
  lemma ComponentWithinLength(c: real, len: real, u: real, v: real)
    requires len >= 0.0 && len * len == c * c + u * u + v * v
    ensures -len <= c <= len
  {
    SquareNonNegative(u);
    SquareNonNegative(v);
    SquareWithin(c, len);
  }

  /** Every component of a vector of the field lies within its length. */
  lemma ComponentOfVector(data: seq<real>, lens: seq<real>, a: nat, k: nat)
    requires Magnitudes(data, lens) && a < |lens| && k < 3
    ensures 3 * a + k < |data| && -lens[a] <= data[3 * a + k] <= lens[a]
  {
    var x, y, z := data[3 * a], data[3 * a + 1], data[3 * a + 2];
    assert IsLength(lens[a], x, y, z);
    if k == 0 {
      ComponentWithinLength(x, lens[a], y, z);
    } else if k == 1 {
      ComponentWithinLength(y, lens[a], x, z);
    } else {
      ComponentWithinLength(z, lens[a], x, y);
    }
  }

  /** A component no longer than the length maps into [0,1]. */
  lemma DirectionInUnit(c: real, len: real)
    requires len >= NearZero && -len <= c <= len
    ensures 0.0 <= Direction(c, len) <= 1.0
  {
    DivAtMostOne(c, len);
    DivAtLeastMinusOne(c, len);
    assert 0.5 * c / len == 0.5 * (c / len);
  }

  /** First-pass entry `k` of vector `a`. */
  lemma FirstPassAt(data: seq<real>, lens: seq<real>, a: nat, k: nat)
    requires |data| == 3 * |lens| && a < |lens| && k < 4
    ensures 4 * a + k < 4 * |lens| && 3 * a + 2 < |data|
    ensures FirstPass(data, lens, 4 * a + k) ==
      if k < 3 then Direction(data[3 * a + k], lens[a]) else Stored(lens[a])
  {
    var i := 4 * a + k;
    assert i / 4 == a && i % 4 == k;
  }

  /** Texture entry `k` of vector `a`, read back in terms of the vector. */
  lemma EncodeAt(data: seq<real>, lens: seq<real>, a: nat, k: nat)
    requires |data| == 3 * |lens| && MaxStored(lens) > 0.0 && a < |lens| && k < 4
    ensures 4 * a + k < |Encode(data, lens)| && 3 * a + 2 < |data|
    ensures Encode(data, lens)[4 * a + k] ==
      if k < 3 then Direction(data[3 * a + k], lens[a])
      else ClampReal(Stored(lens[a]) / MaxStored(lens), 0.0, 1.0)
  {
    FirstPassAt(data, lens, a, k);
  }

  /** A near-zero vector encodes as the neutral direction (0.5, 0.5, 0.5)
      with magnitude 0. */
  lemma EncodeNearZero(data: seq<real>, lens: seq<real>, a: nat)
    requires |data| == 3 * |lens| && MaxStored(lens) > 0.0
    requires a < |lens| && lens[a] < NearZero
    ensures 4 * a + 3 < |Encode(data, lens)|
    ensures Encode(data, lens)[4 * a] == 0.5 && Encode(data, lens)[4 * a + 1] == 0.5
    ensures Encode(data, lens)[4 * a + 2] == 0.5 && Encode(data, lens)[4 * a + 3] == 0.0
  {
    EncodeAt(data, lens, a, 0);
    EncodeAt(data, lens, a, 1);
    EncodeAt(data, lens, a, 2);
    EncodeAt(data, lens, a, 3);
    ZeroDiv(MaxStored(lens));
  }

  /** Any other vector encodes each component c as 0.5*c/len + 0.5, which
      lies in [0,1] because no component is longer than the vector. */
  lemma EncodeDirection(data: seq<real>, lens: seq<real>, a: nat, k: nat)
    requires Magnitudes(data, lens) && MaxStored(lens) > 0.0
    requires a < |lens| && k < 3 && lens[a] >= NearZero
    ensures 4 * a + k < |Encode(data, lens)| && 3 * a + k < |data|
    ensures Encode(data, lens)[4 * a + k] == 0.5 * data[3 * a + k] / lens[a] + 0.5
    ensures 0.0 <= Encode(data, lens)[4 * a + k] <= 1.0
  {
    EncodeAt(data, lens, a, k);
    ComponentOfVector(data, lens, a, k);
    DirectionInUnit(data[3 * a + k], lens[a]);
  }

  /** The magnitude channel is the stored magnitude over the field's
      maximum; it needs no clamping and lies in [0,1]. */
  lemma EncodeMagnitude(data: seq<real>, lens: seq<real>, a: nat)
    requires |data| == 3 * |lens| && MaxStored(lens) > 0.0 && a < |lens|
    ensures 4 * a + 3 < |Encode(data, lens)|
    ensures Encode(data, lens)[4 * a + 3] == Stored(lens[a]) / MaxStored(lens)
    ensures 0.0 <= Encode(data, lens)[4 * a + 3] <= 1.0
  {
    var m := MaxStored(lens);
    MaxStoredIsUpperBound(lens);
    var s := Stored(lens[a]);
    assert 0.0 <= s <= m;
    RealDivLe(s, m, m);
    RealDivLe(0.0, s, m);
    DivSelf(m);
  }

  /** A vector whose magnitude is the field's maximum gets magnitude
      exactly 1, and some vector of the field always does. */
  lemma EncodeMaximumIsOne(data: seq<real>, lens: seq<real>)
    requires |data| == 3 * |lens| && MaxStored(lens) > 0.0
    ensures forall a :: 0 <= a < |lens| && Stored(lens[a]) == MaxStored(lens) ==> Encode(data, lens)[4 * a + 3] == 1.0
    ensures exists a :: 0 <= a < |lens| && Encode(data, lens)[4 * a + 3] == 1.0
  {
    forall a | 0 <= a < |lens| && Stored(lens[a]) == MaxStored(lens)
      ensures Encode(data, lens)[4 * a + 3] == 1.0
    {
      EncodeMagnitude(data, lens, a);
      DivSelf(MaxStored(lens));
    }
    MaxStoredIsAttained(lens);
    var a :| 0 <= a < |lens| && Stored(lens[a]) == MaxStored(lens);
    assert Encode(data, lens)[4 * a + 3] == 1.0;
  }

  /** A field whose vectors all have the same non-negligible length
      encodes magnitude 1 everywhere. */
  lemma EncodeUniformLength(data: seq<real>, lens: seq<real>)
    requires |data| == 3 * |lens| && |lens| > 0 && lens[0] >= NearZero
    requires forall a :: 0 <= a < |lens| ==> lens[a] == lens[0]
    ensures MaxStored(lens) == lens[0]
    ensures forall a :: 0 <= a < |lens| ==> Encode(data, lens)[4 * a + 3] == 1.0
  {
    MaxStoredIsAttained(lens);
    var top :| 0 <= top < |lens| && Stored(lens[top]) == MaxStored(lens);
    assert lens[top] == lens[0];
    var m := MaxStored(lens);
    DivSelf(m);
    forall a | 0 <= a < |lens|
      ensures Encode(data, lens)[4 * a + 3] == 1.0
    {
      assert Stored(lens[a]) == m;
      EncodeMagnitude(data, lens, a);
    }
  }

  /** A two-vector field, the zero vector then (3, 4, 0) of length 5. */
  lemma EncodeTwoVectors()
    ensures Magnitudes([0.0, 0.0, 0.0, 3.0, 4.0, 0.0], [0.0, 5.0])
    ensures MaxStored([0.0, 5.0]) == 5.0
    ensures Encode([0.0, 0.0, 0.0, 3.0, 4.0, 0.0], [0.0, 5.0]) == [0.5, 0.5, 0.5, 0.0, 0.8, 0.9, 0.5, 1.0]
  {
    var data, lens := [0.0, 0.0, 0.0, 3.0, 4.0, 0.0], [0.0, 5.0];
    assert lens[..1] == [0.0];
    assert IsLength(lens[1], data[3], data[4], data[5]);
    var out := Encode(data, lens);
    assert out[0] == 0.5 && out[1] == 0.5 && out[2] == 0.5 && out[3] == 0.0;
    assert out[4] == 0.8 && out[5] == 0.9 && out[6] == 0.5 && out[7] == 1.0;
  }

  /** The first pass has written the texture entries of the first `n` vectors. */
  ghost predicate FirstPassDone(p: seq<real>, data: seq<real>, lens: seq<real>, n: nat)
    requires |data| == 3 * |lens|
  {
    && n <= |lens| && |p| == 4 * |lens|
    && forall i :: 0 <= i < 4 * n ==> p[i] == FirstPass(data, lens, i)
  }

  /** The second pass has normalised the magnitudes of the first `n` vectors. */
  ghost predicate SecondPassDone(p: seq<real>, first: seq<real>, m: real, n: nat)
    requires m > 0.0
  {
    && |p| == |first|
    && forall i :: 0 <= i < |first| ==>
         p[i] == if i / 4 < n && i % 4 == 3 then ClampReal(first[i] / m, 0.0, 1.0) else first[i]
  }

  /** First pass over one vector, at address `adr`: direction channels and
      the stored magnitude; returns the new running maximum. */
  method EncodeVector(padded: array<real>, data: array<real>, lens: seq<real>, adr: nat, maxLen: real)
    returns (newMax: real)
    requires data.Length == 3 * |lens| && padded.Length == 4 * |lens| && adr < |lens|
    requires FirstPassDone(padded[..], data[..], lens, adr) && maxLen == MaxStored(lens[..adr])
    modifies padded
    ensures FirstPassDone(padded[..], data[..], lens, adr + 1) && newMax == MaxStored(lens[..adr + 1])
  {
    var len := lens[adr];
    if len < NearZero {
      len := 0.0;
      padded[4 * adr] := 0.5;
      padded[4 * adr + 1] := 0.5;
      padded[4 * adr + 2] := 0.5;
    } else {
      padded[4 * adr] := 0.5 * data[3 * adr] / len + 0.5;
      padded[4 * adr + 1] := 0.5 * data[3 * adr + 1] / len + 0.5;
      padded[4 * adr + 2] := 0.5 * data[3 * adr + 2] / len + 0.5;
    }
    newMax := Max(len, maxLen);
    padded[4 * adr + 3] := len;
    MaxStoredStep(lens, adr);
    forall i | 0 <= i < 4 * (adr + 1)
      ensures padded[i] == FirstPass(data[..], lens, i)
    {
      if i >= 4 * adr {
        FirstPassAt(data[..], lens, adr, i - 4 * adr);
      }
    }
  }

  /** paddingData: two passes over the grid in z, y, x order. The first
      writes directions and stored magnitudes and tracks their maximum, the
      second divides each magnitude by that maximum and clamps it. */
  method PaddingData(dataSize: seq<nat>, data: array<real>, lens: seq<real>) returns (padded: array<real>)
    requires |dataSize| == 3 && |lens| == Volume(dataSize) && data.Length == 3 * |lens|
    requires Magnitudes(data[..], lens) && MaxStored(lens) > 0.0
    ensures fresh(padded)
    ensures padded[..] == Encode(data[..], lens)
  {
    var nx, ny, nz := dataSize[0], dataSize[1], dataSize[2];
    var size := nx * ny * nz;
    padded := new real[4 * size];
    var maxLen := 0.0;
    AddressEnd(dataSize);
    for z := 0 to nz
      invariant Address(dataSize, 0, 0, z) <= size
      invariant FirstPassDone(padded[..], data[..], lens, Address(dataSize, 0, 0, z))
      invariant maxLen == MaxStored(lens[..Address(dataSize, 0, 0, z)])
    {
      for y := 0 to ny
        invariant Address(dataSize, 0, y, z) <= size
        invariant FirstPassDone(padded[..], data[..], lens, Address(dataSize, 0, y, z))
        invariant maxLen == MaxStored(lens[..Address(dataSize, 0, y, z)])
      {
        for x := 0 to nx
          invariant FirstPassDone(padded[..], data[..], lens, Address(dataSize, x, y, z))
          invariant maxLen == MaxStored(lens[..Address(dataSize, x, y, z)])
        {
          var adr := (z * ny + y) * nx + x;
          AddressBound(dataSize, x, y, z);
          maxLen := EncodeVector(padded, data, lens, adr, maxLen);
          assert adr + 1 == Address(dataSize, x + 1, y, z);
        }
        AddressRowCarry(dataSize, y, z);
        if y + 1 < ny {
          AddressWithin(dataSize, 0, y + 1, z);
        } else {
          AddressSliceCarry(dataSize, z);
          if z + 1 < nz {
            AddressWithin(dataSize, 0, 0, z + 1);
          }
        }
      }
      AddressSliceCarry(dataSize, z);
    }
    assert lens[..size] == lens;
    ghost var first := padded[..];
    for z := 0 to nz
      invariant Address(dataSize, 0, 0, z) <= size
      invariant SecondPassDone(padded[..], first, maxLen, Address(dataSize, 0, 0, z))
    {
      for y := 0 to ny
        invariant Address(dataSize, 0, y, z) <= size
        invariant SecondPassDone(padded[..], first, maxLen, Address(dataSize, 0, y, z))
      {
        for x := 0 to nx
          invariant SecondPassDone(padded[..], first, maxLen, Address(dataSize, x, y, z))
        {
          var adr := (z * ny + y) * nx + x;
          AddressBound(dataSize, x, y, z);
          var len := padded[4 * adr + 3] / maxLen;
          padded[4 * adr + 3] := ClampReal(len, 0.0, 1.0);
          assert adr + 1 == Address(dataSize, x + 1, y, z);
        }
        AddressRowCarry(dataSize, y, z);
        if y + 1 < ny {
          AddressWithin(dataSize, 0, y + 1, z);
        } else {
          AddressSliceCarry(dataSize, z);
          if z + 1 < nz {
            AddressWithin(dataSize, 0, 0, z + 1);
          }
        }
      }
      AddressSliceCarry(dataSize, z);
    }
    forall i | 0 <= i < padded.Length
      ensures padded[i] == Encode(data[..], lens)[i]
    {
      assert i / 4 < size;
    }
  }
}
