/** The LIC raycaster (class LICRaycaster) reduced to what decides texture
    uploads: the volume and the mask each carry a version counter, and a
    per-context record (LICRaycaster::DataItem) remembers which versions it
    last uploaded. The GL textures themselves are ghost state of that record. */
module Raycaster {
  import opened Version
  import opened MaskGeometry
  import opened BrushMask
  import opened Padding
  import opened Brush

  /** One context's record of what it has uploaded. */
  class DataItem {
    var volumeTextureVersion: U32
    var maskTextureVersion: U32
    ghost var volumeTexture: seq<real>
    ghost var maskTexture: seq<real>
    ghost var volumeUploads: nat
    ghost var maskUploads: nat

    /** A new record has seen version 0 of both textures and uploaded nothing. */
    constructor ()
      ensures volumeTextureVersion == 0 && maskTextureVersion == 0
      ensures volumeUploads == 0 && maskUploads == 0
    {
      volumeTextureVersion := 0;
      maskTextureVersion := 0;
      volumeTexture := [];
      maskTexture := [];
      volumeUploads := 0;
      maskUploads := 0;
    }
  }

  class LICRaycaster {
    const dataSize: seq<nat>
    const domain: Box
    /** The three-channel vector field, written by the data source in place. */
    const data: array<real>
    var dataVersion: U32
    /** The brush mask; null until one is attached. */
    var mask: LICBrushMask?

    ghost predicate Valid()
      reads this
    {
      |dataSize| == 3 && WellFormed(domain) && data.Length == 3 * Volume(dataSize)
    }

    /** A raycaster over a grid of `sDataSize` cells in `sDomain`, holding a
        fresh three-channel buffer, at data version 0. */
    constructor (sDataSize: seq<nat>, sDomain: Box)
      requires |sDataSize| == 3 && WellFormed(sDomain)
      ensures Valid() && fresh(data)
      ensures dataSize == sDataSize && domain == sDomain
      ensures dataVersion == 0 && mask == null
    {
      dataSize := sDataSize;
      domain := sDomain;
      data := new real[3 * (sDataSize[0] * sDataSize[1] * sDataSize[2])];
      dataVersion := 0;
      mask := null;
    }

    /** The data source changed the field: a new data version. */
    method UpdateData()
      modifies this
      ensures dataVersion == Next(old(dataVersion)) && mask == old(mask)
    {
      dataVersion := Next(dataVersion);
    }

    /** Attaches `sMask` and resizes it to the raycaster's grid and domain,
        which gives the mask a new version. */
    method SetLICMask(sMask: LICBrushMask)
      requires Valid()
      modifies this, sMask
      ensures mask == sMask && dataVersion == old(dataVersion)
      ensures sMask.Valid() && fresh(sMask.data)
      ensures sMask.dataSize == dataSize && sMask.domain == domain
      ensures sMask.version == Next(old(sMask.version))
    {
      mask := sMask;
      mask.Resize(dataSize, domain);
    }

    /** The upload part of bindShader. The volume is encoded and uploaded
        exactly when the record's volume version differs from the data
        version, and the mask buffer is uploaded exactly when the record's
        mask version differs from the mask's; afterwards the record holds
        both current versions. `lens` are the vector lengths the encoder
        computes; they are needed only when the volume is uploaded. */
    method BindShader(item: DataItem, lens: seq<real>)
      requires Valid() && mask != null && mask.Valid()
      requires item.volumeTextureVersion != dataVersion ==>
        |lens| == Volume(dataSize) && Magnitudes(data[..], lens) && MaxStored(lens) > 0.0
      modifies item
      ensures item.volumeTextureVersion == dataVersion && item.maskTextureVersion == mask.version
      ensures old(item.volumeTextureVersion) != dataVersion ==>
        |lens| == Volume(dataSize) && MaxStored(lens) > 0.0 &&
        item.volumeTexture == Encode(data[..], lens) && item.volumeUploads == old(item.volumeUploads) + 1
      ensures old(item.volumeTextureVersion) == dataVersion ==>
        item.volumeTexture == old(item.volumeTexture) && item.volumeUploads == old(item.volumeUploads)
      ensures old(item.maskTextureVersion) != mask.version ==>
        item.maskTexture == mask.data[..] && item.maskUploads == old(item.maskUploads) + 1
      ensures old(item.maskTextureVersion) == mask.version ==>
        item.maskTexture == old(item.maskTexture) && item.maskUploads == old(item.maskUploads)
    {
      if item.volumeTextureVersion != dataVersion {
        var pData := PaddingData(dataSize, data, lens);
        item.volumeTexture := pData[..];
        item.volumeUploads := item.volumeUploads + 1;
        item.volumeTextureVersion := dataVersion;
      }
      if mask.GetDataVersion() != item.maskTextureVersion {
        item.maskTexture := mask.GetData()[..];
        item.maskUploads := item.maskUploads + 1;
        item.maskTextureVersion := mask.GetDataVersion();
      }
    }
  }

  /** Two frames in a row with nothing changed between them: the second
      uploads nothing, so each texture is uploaded at most once, and both
      textures then hold the current contents. */
  method RedrawUploadsNothing(r: LICRaycaster, item: DataItem, lens: seq<real>)
    requires r.Valid() && r.mask != null && r.mask.Valid()
    requires item.volumeTextureVersion != r.dataVersion ==>
      |lens| == Volume(r.dataSize) && Magnitudes(r.data[..], lens) && MaxStored(lens) > 0.0
    modifies item
    ensures item.volumeUploads <= old(item.volumeUploads) + 1
    ensures item.maskUploads <= old(item.maskUploads) + 1
    ensures item.volumeTextureVersion == r.dataVersion && item.maskTextureVersion == r.mask.version
  {
    r.BindShader(item, lens);
    ghost var volumeUploads, maskUploads := item.volumeUploads, item.maskUploads;
    r.BindShader(item, lens);
    assert item.volumeUploads == volumeUploads && item.maskUploads == maskUploads;
  }

  /** After updateData, the next frame re-encodes and uploads the volume,
      even if the record was up to date before. */
  method UpdateForcesVolumeUpload(r: LICRaycaster, item: DataItem, lens: seq<real>)
    requires r.Valid() && r.mask != null && r.mask.Valid()
    requires item.volumeTextureVersion == r.dataVersion
    requires |lens| == Volume(r.dataSize) && Magnitudes(r.data[..], lens) && MaxStored(lens) > 0.0
    modifies r, item
    ensures item.volumeUploads == old(item.volumeUploads) + 1
    ensures item.volumeTexture == Encode(r.data[..], lens)
  {
    r.UpdateData();
    r.BindShader(item, lens);
  }

  /** A brush stamp between two frames makes the next frame upload the
      stamped mask. */
  method StampForcesMaskUpload(r: LICRaycaster, item: DataItem, lens: seq<real>, brush: LICBrush,
                               origin: Point, rotation: seq<real>)
    requires r.Valid() && r.mask != null && r.mask.Valid() && r.mask.CanStamp()
    requires brush.Valid() && brush.dragging && |origin| == 3 && r.mask.data != r.data
    requires item.maskTextureVersion == r.mask.version
    requires item.volumeTextureVersion != r.dataVersion ==>
      |lens| == Volume(r.dataSize) && Magnitudes(r.data[..], lens) && MaxStored(lens) > 0.0
    modifies item, brush, r.mask, r.mask.data
    ensures r.mask.dataSize == old(r.mask.dataSize) && r.mask.domain == old(r.mask.domain)
    ensures item.maskUploads == old(item.maskUploads) + 1
    ensures item.maskTexture == r.mask.data[..]
    ensures item.maskTexture == Stamp(old(r.mask.data[..]), r.mask.dataSize,
                                      BrushRanges(r.mask.dataSize, r.mask.domain, origin, brush.brushSize),
                                      BrushRanges(r.mask.dataSize, r.mask.domain, origin, InnerRatio * brush.brushSize),
                                      BrushValue)
  {
    brush.MotionCallback(origin, rotation, true, r.mask);
    r.BindShader(item, lens);
  }

  /** Attaching a mask resizes it, so the next frame uploads it even when
      the record had seen the mask's previous version. */
  method AttachForcesMaskUpload(r: LICRaycaster, item: DataItem, lens: seq<real>, m: LICBrushMask)
    requires r.Valid() && item.maskTextureVersion == m.version
    requires item.volumeTextureVersion != r.dataVersion ==>
      |lens| == Volume(r.dataSize) && Magnitudes(r.data[..], lens) && MaxStored(lens) > 0.0
    modifies r, item, m
    ensures r.mask == m && item.maskUploads == old(item.maskUploads) + 1
    ensures item.maskTexture == m.data[..] && |item.maskTexture| == 4 * Volume(r.dataSize)
  {
    r.SetLICMask(m);
    r.BindShader(item, lens);
  }

  /** A pixel value of the kernel image. */
  type Byte = b: int | 0 <= b < 256

  /** Sum of the pixel values of a row. */
  function RowSum(row: seq<Byte>): real {
    if |row| == 0 then 0.0 else RowSum(row[..|row| - 1]) + row[|row| - 1] as real
  }

  /** The area under the kernel function: the sum of its first image row,
      accumulated left to right. */
  method KernelArea(row: seq<Byte>) returns (area: real)
    ensures area == RowSum(row)
  {
    area := 0.0;
    for i := 0 to |row|
      invariant area == RowSum(row[..i])
    {
      assert row[..i + 1][..i] == row[..i];
      area := area + row[i] as real;
    }
    assert row[..|row|] == row;
  }

  /** A row of bytes sums to between 0 and 255 per pixel. */
  lemma {:induction false} RowSumBounds(row: seq<Byte>)
    ensures 0.0 <= RowSum(row) <= 255.0 * |row| as real
  {
    if |row| > 0 {
      RowSumBounds(row[..|row| - 1]);
    }
  }

  /** invKernelArea: half the image width in full-intensity pixels over
      the kernel's area, so that the kernel scaled by it integrates to half
      the width. The source has no guard for an all-black row. */
  function InvKernelArea(width: nat, area: real): (inv: real)
    requires area != 0.0
    ensures inv * area == 0.5 * width as real * 255.0
  {
    0.5 * width as real * 255.0 / area
  }

  /** A kernel row with some intensity yields an inverse area of at least
      one half. */
  lemma InvKernelAreaAtLeastHalf(row: seq<Byte>)
    requires RowSum(row) != 0.0
    ensures InvKernelArea(|row|, RowSum(row)) >= 0.5
  {
    RowSumBounds(row);
    var area, w := RowSum(row), |row| as real;
    var inv := InvKernelArea(|row|, area);
    assert inv * area == 127.5 * w;
    assert (inv - 0.5) * area == inv * area - 0.5 * area;
    NonNegativeFactor(inv - 0.5, area);
  }

  /** A product with a positive factor is non-negative only if the other
      factor is. */
  lemma NonNegativeFactor(x: real, y: real)
    requires y > 0.0 && x * y >= 0.0
    ensures x >= 0.0
  {
    if x < 0.0 {
      PositiveProduct(-x, y);
      assert false;
    }
  }
}
