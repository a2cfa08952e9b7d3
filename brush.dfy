/** The brush tool (class LICBrush): a locator tool that, while its button
    is held, stamps the mask under the locator on every motion event. */
module Brush {
  import opened Version
  import opened MaskGeometry
  import opened BrushMask

  /** The data set locator the tool drives: its last pose, and whether the
      data set could locate that position (isValid()). */
  datatype Locator = Locator(position: Point, orientation: seq<real>, valid: bool)

  /** Radius, in navigation units, that a new brush stamps with. */
  const DefaultBrushSize: real := 0.03

  /** Value the brush writes into the mask. */
  const BrushValue: real := 1.0

  class LICBrush {
    var locator: Locator
    var brushPos: Point
    const brushSize: real
    var dragging: bool
    var hasPoint: bool

    ghost predicate Valid()
      reads this
    {
      |brushPos| == 3
    }

    /** A new brush: not dragging, no point yet, radius 0.03. The locator
        is the one the data set hands out. */
    constructor (initialLocator: Locator)
      ensures Valid()
      ensures locator == initialLocator
      ensures !dragging && !hasPoint && brushSize == DefaultBrushSize
    {
      locator := initialLocator;
      brushPos := [0.0, 0.0, 0.0];
      brushSize := DefaultBrushSize;
      dragging := false;
      hasPoint := false;
    }

    /** Starts dragging, whatever the state before and whether or not the
        locator is valid. */
    method ButtonPressCallback()
      modifies this
      ensures dragging
      ensures locator == old(locator) && brushPos == old(brushPos) && hasPoint == old(hasPoint)
    {
      dragging := true;
    }

    /** Stops dragging; no stamp happens. */
    method ButtonReleaseCallback()
      modifies this
      ensures !dragging
      ensures locator == old(locator) && brushPos == old(brushPos) && hasPoint == old(hasPoint)
    {
      dragging := false;
    }

    /** Stamps the mask at the brush position with value 1.0. */
    method UpdateMask(mask: LICBrushMask)
      requires Valid() && mask.Valid() && mask.CanStamp()
      modifies mask, mask.data
      ensures mask.Valid() && mask.data == old(mask.data)
      ensures mask.dataSize == old(mask.dataSize) && mask.domain == old(mask.domain)
      ensures mask.data[..] == Stamp(old(mask.data[..]), mask.dataSize,
                                     BrushRanges(mask.dataSize, mask.domain, brushPos, brushSize),
                                     BrushRanges(mask.dataSize, mask.domain, brushPos, InnerRatio * brushSize),
                                     BrushValue)
      ensures mask.version == Next(old(mask.version))
    {
      mask.UpdateMaskByBrush(brushPos, brushSize, BrushValue);
    }

    /** A motion event with locator pose (`origin`, `rotation`); `located`
        is what the data set's locator reports for `origin`. The locator
        always follows the pose. While dragging, the brush moves to the
        locator position, and if the locator is valid the mask is stamped
        there once. */
    method MotionCallback(origin: Point, rotation: seq<real>, located: bool, mask: LICBrushMask)
      requires Valid() && |origin| == 3 && mask.Valid()
      requires dragging && located ==> mask.CanStamp()
      modifies this, mask, mask.data
      ensures Valid()
      ensures locator == Locator(origin, rotation, located)
      ensures dragging == old(dragging) && hasPoint == old(hasPoint)
      ensures brushPos == if dragging then origin else old(brushPos)
      ensures mask.Valid() && mask.data == old(mask.data)
      ensures mask.dataSize == old(mask.dataSize) && mask.domain == old(mask.domain)
      ensures dragging && located ==>
        && mask.data[..] == Stamp(old(mask.data[..]), mask.dataSize,
                                  BrushRanges(mask.dataSize, mask.domain, origin, brushSize),
                                  BrushRanges(mask.dataSize, mask.domain, origin, InnerRatio * brushSize),
                                  BrushValue)
        && mask.version == Next(old(mask.version))
      ensures !(dragging && located) ==>
        mask.data[..] == old(mask.data[..]) && mask.version == old(mask.version)
    {
      locator := locator.(position := origin, valid := located);
      locator := locator.(orientation := rotation);
      if dragging {
        brushPos := locator.position;
        if locator.valid {
          UpdateMask(mask);
        }
      }
    }
  }
}
