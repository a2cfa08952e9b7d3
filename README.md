# Brush mask, brush tool and LIC raycaster upload logic

This project models the interactive core of the 3D line-integral-convolution
(LIC) renderer of the 3D Data Visualizer, and proves properties of that model:

- **The brush mask** (`LICBrushMask`) is a dense voxel grid with four floats
  per voxel, stored in a buffer with x varying fastest, plus a 32-bit
  version counter. `updateMaskByBrush` maps a brush sphere to two clamped
  index boxes. It writes the stamp value into channel 0 over the outer box.
  It writes channel 1 only where the inner box (0.4 of the radius) also
  applies. Then it bumps the version. `semiSphereX` fills the lower half in
  x with 1.0. `resize` reallocates the buffer and takes a new domain.
  Modules `MaskGeometry` (index arithmetic and brush ranges) and `BrushMask`
  (the stamp specification and the class).
- **The brush tool** (`LICBrush`) is a drag state machine. A button press
  starts dragging and a release stops it. Every motion moves the locator.
  While dragging, a motion moves the brush and, when the locator is valid,
  stamps the mask once with value 1.0. Module `Brush`.
- **The raycaster** (`LICRaycaster`). `paddingData` is a two-pass encoder
  from a three-channel vector field to a four-channel texture: directions
  remapped into [0,1] and magnitudes normalised by the field's largest
  magnitude. `bindShader` re-encodes and uploads the volume only when its
  version changed, and uploads the mask only when the mask's version
  changed. `updateData` and `setLICMask` drive those versions. Modules
  `Padding` (the encoder) and `Raycaster` (the classes and client
  sequences).
- **Version counters** are C++ `unsigned int`s, modelled with their 2^32
  wrap-around. Module `Version`.

The mask buffer, the raycaster's field and the encoder's output are Dafny
arrays written in place by loops proved against specification functions
on sequences (`Stamp`, `SemiSphere`, `Encode`). Floats are modelled as
`real`. The encoder receives the vector lengths as an input `lens`, tied to
the vectors by `len >= 0 && len*len == x*x + y*y + z*z`, instead of
computing square roots. The GL textures of a context are ghost fields of
`DataItem`: the contents last uploaded and the number of uploads.

## Model

| member | source | states |
|---|---|---|
| Version.Next | LICBrushMask.cpp:58 | `++` on an unsigned counter gives (v+1) mod 2^32, and never the value it started from |
| Version.NextNextChanges | LICBrushMask.cpp:107-123 | two version bumps in a row (two stamps) give (v+2) mod 2^32, again never the starting value |
| MaskGeometry.UnitCube | LICBrushMask.cpp:24-30 | the default domain [0,1]^3 has positive extent on every axis |
| MaskGeometry.CellOfAddress | LICBrushMask.cpp:111-116 | channel ch of voxel (x,y,z) sits at 4*((y+z*ny)*nx+x)+ch, inside the buffer, and decoding that position gives back (x,y,z,ch): distinct voxels never share a slot |
| MaskGeometry.AddressBound | LICBrushMask.cpp:81 | the address of every voxel of the grid is below nx*ny*nz |
| MaskGeometry.AddressRowCarry | LICRaycaster.cpp:349-353 | the address after the last voxel of an x row is the first voxel of the next row |
| MaskGeometry.AddressSliceCarry | LICRaycaster.cpp:349-353 | the address after the last row of a z slice is the first voxel of the next slice |
| MaskGeometry.AddressEnd | LICRaycaster.cpp:345-353 | the address after the last slice is nx*ny*nz, the number of voxels |
| MaskGeometry.Trunc | LICBrushMask.cpp:97 | assigning a real to an `int` truncates toward zero: the result is within 1 of the value, on the zero side |
| MaskGeometry.Clamp | LICBrushMask.cpp:98 | the clamped index lies in [lo,hi], is the value itself when already inside, and is the nearer bound otherwise |
| MaskGeometry.ToIndexMonotone | LICBrushMask.cpp:97-103 | the coordinate-to-index map size*(c-min)/(max-min), truncated, never decreases as c grows |
| MaskGeometry.AxisRange | LICBrushMask.cpp:97-104 | both bounds of a brush range along one axis lie in [0, size-1] |
| MaskGeometry.AxisRangeNonEmpty | LICBrushMask.cpp:97-109 | with radius >= 0 the lower bound never exceeds the upper one, so every stamp touches at least one voxel per axis |
| MaskGeometry.InnerRangeWithinOuter | LICBrushMask.cpp:94-104 | the range of the 0.4-radius inner box lies within that of the outer box |
| MaskGeometry.FarOutsideClampsToEdge | LICBrushMask.cpp:97-104 | a brush wholly beyond the upper face covers exactly index size-1, one wholly below the lower face exactly index 0 |
| MaskGeometry.BrushRanges | LICBrushMask.cpp:95-106 | the three per-axis ranges of a brush, each with both bounds in [0, size[d]-1] |
| BrushMask.Stamp | LICBrushMask.cpp:107-122 | the stamped buffer has the length of the old one |
| BrushMask.StampSetsMask | LICBrushMask.cpp:107-112 | every voxel in the outer box has channel 0 equal to the stamp value |
| BrushMask.StampDirectional | LICBrushMask.cpp:113-116 | a voxel in the outer box gets channel 1 = value exactly when it is also in the inner box, and keeps its old channel 1 otherwise |
| BrushMask.StampKeepsRest | LICBrushMask.cpp:107-122 | channels 2 and 3 everywhere, and all channels outside the outer box, keep their old values |
| BrushMask.StampIdempotent | LICBrushMask.cpp:107-122 | stamping the same boxes with the same value twice leaves the buffer of one stamp |
| BrushMask.SemiSphere | LICBrushMask.cpp:77-86 | the filled buffer has the length of the old one |
| BrushMask.SemiSphereFillsLowerHalf | LICBrushMask.cpp:77-86 | all four channels of every voxel with x < size[0]/2 become 1.0 |
| BrushMask.SemiSphereKeepsUpperHalf | LICBrushMask.cpp:77-86 | every channel of every voxel with x >= size[0]/2 keeps its old value |
| BrushMask.LICBrushMask.constructor | LICBrushMask.cpp:18-33 | a new mask has 64x64x64 voxels, four floats each, over the unit cube, at version 0 |
| BrushMask.LICBrushMask.Sized | LICBrushMask.cpp:35-42 | a sized mask has the given dimensions, a buffer of four floats per voxel, and version 0 |
| BrushMask.LICBrushMask.Resize | LICBrushMask.cpp:54-71 | a fresh buffer of four floats per voxel of the new size, the new size and domain, and the version bumped once |
| BrushMask.LICBrushMask.GetData | LICBrushMask.h:44-47 | returns the mask's own buffer |
| BrushMask.LICBrushMask.GetSizes | LICBrushMask.h:50-53 | returns the three dimensions |
| BrushMask.LICBrushMask.GetSize | LICBrushMask.h:54-60 | returns dimension idx for 0 <= idx < 3 and 0 for any other index |
| BrushMask.LICBrushMask.GetDataVersion | LICBrushMask.h:61-64 | returns the current version, reading state only |
| BrushMask.LICBrushMask.SemiSphereX | LICBrushMask.cpp:73-88 | the buffer becomes SemiSphere of the old buffer (lower half in x filled with 1.0, the rest kept) and the version is bumped once |
| BrushMask.LICBrushMask.BrushBoxes | LICBrushMask.cpp:93-106 | the per-axis loop computes the outer ranges for radius brushSize and the inner ranges for 0.4*brushSize |
| BrushMask.LICBrushMask.StampBoxes | LICBrushMask.cpp:107-122 | the triple loop over the outer box leaves exactly Stamp of the old buffer |
| BrushMask.LICBrushMask.UpdateMaskByBrush | LICBrushMask.cpp:90-124 | the buffer becomes Stamp of the old one with the brush's outer and inner ranges, size and domain stay, the version is bumped exactly once |
| Brush.LICBrush.constructor | LICBrush.cpp:37-43 | a new brush is not dragging, has no point, and has radius 0.03 |
| Brush.LICBrush.ButtonPressCallback | LICBrush.cpp:66-71 | dragging becomes true whatever the previous state and locator validity; nothing else changes |
| Brush.LICBrush.ButtonReleaseCallback | LICBrush.cpp:73-77 | dragging becomes false and nothing is stamped |
| Brush.LICBrush.UpdateMask | LICBrush.cpp:84-87 | the mask is stamped once at the brush position with the brush radius and value 1.0 |
| Brush.LICBrush.MotionCallback | LICBrush.cpp:50-64 | the locator always takes the new pose; while dragging the brush moves there and, if the locator is valid, the mask is stamped exactly once; otherwise the mask and its version are unchanged |
| Padding.Encode | LICRaycaster.cpp:343-380 | the texture has four entries per vector |
| Padding.MaxStoredIsUpperBound | LICRaycaster.cpp:347-369 | the first pass's maxLen is >= 0 and at least every stored magnitude |
| Padding.MaxStoredIsAttained | LICRaycaster.cpp:347-369 | maxLen of a non-empty field is the stored magnitude of one of its vectors |
| Padding.MaxStoredStep | LICRaycaster.cpp:368 | visiting one more vector is one std::max(len, maxLen) step |
| Padding.ComponentWithinLength | LICRaycaster.cpp:354 | a component of a vector lies within [-len, len] of its length |
| Padding.DirectionInUnit | LICRaycaster.cpp:362-367 | 0.5*c/len+0.5 lies in [0,1] when c lies within [-len, len] |
| Padding.EncodeAt | LICRaycaster.cpp:353-377 | texture entry 4*a+k holds direction k of vector a for k < 3, and its clamped normalised magnitude for k = 3 |
| Padding.EncodeNearZero | LICRaycaster.cpp:355-361 | a vector shorter than 1e-5 encodes as (0.5, 0.5, 0.5) with magnitude 0 |
| Padding.EncodeDirection | LICRaycaster.cpp:362-367 | any other vector encodes component c as 0.5*c/len+0.5, and that value lies in [0,1] |
| Padding.EncodeMagnitude | LICRaycaster.cpp:371-378 | channel 3 is stored/maxLen, which needs no clamping and lies in [0,1] |
| Padding.EncodeMaximumIsOne | LICRaycaster.cpp:371-378 | every vector whose magnitude is the maximum gets magnitude exactly 1, and at least one vector does |
| Padding.EncodeUniformLength | LICRaycaster.cpp:343-380 | a field whose vectors all have one length >= 1e-5 encodes magnitude 1 everywhere |
| Padding.EncodeTwoVectors | LICRaycaster.cpp:343-380 | the field [(0,0,0), (3,4,0)] encodes as [0.5, 0.5, 0.5, 0, 0.8, 0.9, 0.5, 1] |
| Padding.EncodeVector | LICRaycaster.cpp:353-369 | one first-pass step writes the four entries of the next vector and advances maxLen by one std::max step |
| Padding.PaddingData | LICRaycaster.cpp:343-380 | the two loop passes leave a fresh array equal to Encode of the field |
| Raycaster.DataItem.constructor | LICRaycaster.cpp:43-50 | a new context record has seen version 0 of both textures and uploaded nothing |
| Raycaster.LICRaycaster.constructor | LICRaycaster.cpp:382-386 | a new raycaster holds a fresh buffer of three floats per voxel, the given size and domain, and data version 0 |
| Raycaster.LICRaycaster.UpdateData | LICRaycaster.cpp:450-454 | the data version is bumped by exactly one |
| Raycaster.LICRaycaster.SetLICMask | LICRaycaster.cpp:465-470 | the raycaster holds the mask, which is resized to the raycaster's size and domain with its version bumped once |
| Raycaster.LICRaycaster.BindShader | LICRaycaster.cpp:204-231 | the volume is encoded and uploaded iff the record's volume version differs from the data version, the mask buffer is uploaded iff the record's mask version differs from the mask's, and afterwards the record holds both current versions |
| Raycaster.RedrawUploadsNothing | LICRaycaster.cpp:204-231 | two frames with no change between them upload each texture at most once |
| Raycaster.UpdateForcesVolumeUpload | LICRaycaster.cpp:450-454 | after updateData the next frame re-encodes and uploads the volume, even from an up-to-date record |
| Raycaster.StampForcesMaskUpload | LICRaycaster.cpp:224-231 | a brush stamp between frames makes the next frame upload the stamped mask |
| Raycaster.AttachForcesMaskUpload | LICRaycaster.cpp:465-470 | attaching a mask makes the next frame upload it, even if the record had seen the mask's previous version |
| Raycaster.KernelArea | LICRaycaster.cpp:324-326 | the loop accumulates the sum of the kernel row's pixel values |
| Raycaster.RowSumBounds | LICRaycaster.cpp:324-326 | a row of bytes sums to between 0 and 255 per pixel |
| Raycaster.InvKernelArea | LICRaycaster.cpp:327 | invKernelArea times the area is 0.5*width*255 |
| Raycaster.InvKernelAreaAtLeastHalf | LICRaycaster.cpp:324-327 | a kernel row with any intensity gives an invKernelArea of at least 0.5 |

## Left out

- OpenGL is not modelled: texture creation, binding and parameters, uniform locations, shader compilation and unbinding (`initDataItem`, `initShader`, `unbindShader`, `initContext`, and the bind part of `bindShader`). An upload is modelled as ghost state of `DataItem`.
- `initDataItem` also makes an initial upload of the mask buffer, at texture creation. That upload is not counted in `maskUploads`.
- Reading files and images (`loadNoiseTexture`, and the image read of `loadKernelFunction`) is I/O and is not modelled. The kernel row is an input of `KernelArea`.
- The colour map: its transparency adjustment, premultiplication and upload, and the setters `setColorMap`, `setTransparencyGamma`, `setStepSize` and the LIC step-size accessors. These are plain field assignments outside the upload logic.
- Console logging and the empty `highlightLocator` are not modelled.
- The vector locator and the mask lookup through the application's variable manager are foreign collaborators. `MotionCallback` takes the pose, whether the locator is valid, and the mask as inputs.
- `getData(unsigned int index[3])` and `getData(double pos[3])` of the mask are declared without definitions. The raycaster's `getData(channel)` is a pointer offset into its buffer. None of these is modelled.
- The mask's `cellSize` is not modelled. It is uninitialised in the default constructor and accumulates across resizes.
- The mask's copy constructor deletes an uninitialised pointer. `resize` releases the old buffer with `delete` instead of `delete[]`. Every volume upload leaks its padded buffer. None of these memory defects is modelled.
- Floats are modelled as exact reals, with no rounding, NaN or infinity. Float-to-int conversion of an out-of-range value is not modelled.
- Unsigned products of dimensions are exact naturals here; their 32-bit overflow is not modelled.
- Padding.PaddingData: takes the vector lengths as an input instead of computing square roots in floats.
- Padding.PaddingData: requires the largest magnitude to be positive. The source divides by it with no guard, so an all-zero field gives 0/0. `Encode` excludes that case as well.
- Raycaster.LICRaycaster.BindShader: requires an attached mask. The source never initialises the mask pointer in its constructor and dereferences it in every frame.
- Raycaster.InvKernelArea: requires a non-zero kernel area. The source divides by it with no guard.
- BrushMask.LICBrushMask.UpdateMaskByBrush: requires positive dimensions and a domain of positive extent. Otherwise the source's loop bounds leave the buffer, or it divides by zero.
- Brush.LICBrush.MotionCallback: requires a stampable mask (`CanStamp`) only when it will stamp, for the same reason.
- BrushMask.LICBrushMask.Sized: does not promise a domain. The source leaves the domain unset.
- BrushMask.LICBrushMask.Resize: does not promise any buffer contents. The source does not initialise the new buffer.
- BrushMask.LICBrushMask.Resize: does not reject invalid dimensions or domains. The source does not check them either.
- Raycaster.StampForcesMaskUpload: requires the mask buffer and the raycaster's field to be distinct arrays, as they are in the source.
- The initial volume texture. The record and the data both start at version 0, so the first frame uploads no volume until `updateData` is called. The model keeps this behaviour.
- Behaviour the model keeps from the source, though a reader might expect otherwise:
  - `resize` neither zeroes the buffer nor validates its arguments.
  - A button press starts dragging without requiring a valid locator.
  - There is no guard for a zero maximum magnitude.
  - Without a mask, rendering does not degrade; the source dereferences the missing mask.
