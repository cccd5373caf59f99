/**
 * The threshold-based decision procedure shared by the ModeBB and ModeCA
 * presets. Given the native and the target dimensions it decides whether to
 * apply a first x2 upscale, which Downscale stages to insert, and whether to
 * apply a second x2 upscale, tracking the "current" size as the presets do.
 * The thresholds 1.2, 2.0, 2.4 and 4.0 are written as exact rationals.
 */
module Selector {
  import opened Pipeline

  /** target > 1.2 * current in both dimensions. */
  predicate Exceeds(target: Dims, current: Dims) {
    5 * target.width > 6 * current.width && 5 * target.height > 6 * current.height
  }

  /** 1.2 * native < target < 2.0 * native in both dimensions: the "Auto Downscale x2" band. */
  predicate InHalfBand(native: Dims, target: Dims) {
    && 5 * target.width > 6 * native.width
    && 5 * target.height > 6 * native.height
    && target.width < 2 * native.width
    && target.height < 2 * native.height
  }

  /** 2.4 * native < target < 4.0 * native in both dimensions: the "Auto Downscale x4" band. */
  predicate InQuarterBand(native: Dims, target: Dims) {
    && 5 * target.width > 12 * native.width
    && 5 * target.height > 12 * native.height
    && target.width < 4 * native.width
    && target.height < 4 * native.height
  }

  function Double(d: Dims): Dims {
    Dims(2 * d.width, 2 * d.height)
  }

  /** (Math.ceil(width / 2), Math.ceil(height / 2)) for whole-pixel dimensions. */
  function CeilHalf(d: Dims): (h: Dims)
    ensures 2 * h.width - 1 <= d.width <= 2 * h.width
    ensures 2 * h.height - 1 <= d.height <= 2 * h.height
  {
    Dims((d.width + 1) / 2, (d.height + 1) / 2)
  }

  /**
   * What the preset constructors decide: `upscale1` is the first x2 upscale,
   * `downscales` the Downscale targets in the order appended, `tracked` the
   * current size when the second upscale is considered, `upscale2` that
   * upscale, and `size` the final tracked size.
   */
  datatype Decision = Decision(upscale1: bool, downscales: seq<Dims>, tracked: Dims, upscale2: bool, size: Dims)

  /** The decision, step by step as the constructors take it. */
  function Decide(native: Dims, target: Dims): (d: Decision)
    // the first upscale is taken iff the target exceeds 1.2 x native, and then doubles the size
    ensures d.upscale1 <==> Exceeds(target, native)
    // the two Downscale bands are disjoint: at most one Downscale is appended
    ensures |d.downscales| <= 1
    ensures InHalfBand(native, target) ==> d.downscales == [target] && d.tracked == target
    ensures InQuarterBand(native, target) ==> d.downscales == [CeilHalf(target)] && d.tracked == CeilHalf(target)
    ensures !InHalfBand(native, target) && !InQuarterBand(native, target) ==>
      d.downscales == [] && d.tracked == (if d.upscale1 then Double(native) else native)
    // any Downscale comes after the first upscale
    ensures d.downscales != [] ==> d.upscale1
    // the second upscale is taken iff the target exceeds 1.2 x the tracked size
    ensures d.upscale2 <==> Exceeds(target, d.tracked)
    ensures d.size == (if d.upscale2 then Double(d.tracked) else d.tracked)
    // so it needs the first, and is never taken in the 1.2 - 2.0 band
    ensures d.upscale2 ==> d.upscale1
    ensures InHalfBand(native, target) ==> !d.upscale2 && d.size == target
  {
    var up1 := Exceeds(target, native);
    var s1 := if up1 then Double(native) else native;
    var x2 := InHalfBand(native, target);
    var s2 := if x2 then target else s1;
    var x4 := InQuarterBand(native, target);
    var s3 := if x4 then CeilHalf(target) else s2;
    var up2 := Exceeds(target, s3);
    Decision(up1, (if x2 then [target] else []) + (if x4 then [CeilHalf(target)] else []),
             s3, up2, if up2 then Double(s3) else s3)
  }

  /** One Downscale stage kind per Downscale target, in order. */
  function DownscaleKinds(targets: seq<Dims>): seq<Kind> {
    if targets == [] then [] else [Downscale(targets[0])] + DownscaleKinds(targets[1..])
  }

  /**
   * In the 2.4 - 4.0 band the second upscale is always taken and the final
   * size is the target, or one pixel more in a dimension whose target is odd.
   */
  lemma QuarterBandReachesTarget(native: Dims, target: Dims)
    requires InQuarterBand(native, target)
    ensures Decide(native, target).upscale2
    ensures Decide(native, target).size == Double(CeilHalf(target))
    ensures target.width <= Decide(native, target).size.width <= target.width + 1
    ensures target.height <= Decide(native, target).size.height <= target.height + 1
  {
    var h := CeilHalf(target);
    assert native.width >= 1 && native.height >= 1;
    assert target.width >= 3 && target.height >= 3;
    assert 5 * target.width > 6 * h.width;
    assert 5 * target.height > 6 * h.height;
  }

  /** When the target is the native size no scale stage is chosen and the size stays native. */
  lemma SameSizeChoosesNothing(native: Dims)
    ensures Decide(native, native) == Decision(false, [], native, false, native)
  {
  }

  /** native 640x360, target 1920x1080: up, Downscale to 960x540, up, ending at 1920x1080. */
  lemma ThreeTimesScenario()
    ensures Decide(Dims(640, 360), Dims(1920, 1080))
         == Decision(true, [Dims(960, 540)], Dims(960, 540), true, Dims(1920, 1080))
  {
  }
}
