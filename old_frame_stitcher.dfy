/**
 * The prototype stitcher: free functions driven by a `main` that calibrates
 * once from one frame of each video and then stitches every later set of
 * frames. It shares the strategy choices, the extraction loop, the median rule
 * and the composition requests with the class version. It differs in a few
 * places:
 * - the work and seam megapixels and the detector are fixed;
 * - the image list is cut down to the biggest component only after the
 *   cameras are adjusted;
 * - `stitch_frame` keeps its compose-scale flag on `args`, rescales the
 *   caller's camera objects in place, and takes the warped image scale by
 *   value;
 * - in time-lapse mode `stitch_frame` exits, and on success it reports the
 *   zoom factor that brings the panorama to 600 pixels wide.
 */
module OldFrameStitching {
  import opened Common
  import opened Choices
  import opened Cameras
  import opened Extraction
  import opened FrameStitching
  import Median

  /** The attributes `main` puts on `args`, and the flag `stitch_frame` keeps there. */
  class Args {
    const opts: Options
    var isComposeScaleSet: bool

    constructor (o: Options)
      ensures opts == o && !isComposeScaleSet
    {
      opts := o;
      isComposeScaleSet := false;
    }
  }

  /** The values `main` assigns to `args`: every one is the class version's default. */
  const MainArgs: Options := Defaults

  /**
   * `feature_extractor`'s fixed settings: work megapixels 0.6, seam megapixels
   * 0.1 and the SIFT detector. The matcher still reads `args.features`.
   */
  function OldSettings(o: Options, finders: set<string>): (s: Settings)
    ensures s.workMegapix == 0.6 && s.seamMegapix == 0.1 && s.finder == "sift" && s.finders == finders
    ensures s.matcher == GetMatcher(o.matcherType, o.matchConf, o.featuresType, o.rangeWidth)
  {
    Settings(0.6, 0.1, "sift", finders, GetMatcher(o.matcherType, o.matchConf, o.featuresType, o.rangeWidth))
  }

  /**
   * For `main`'s arguments the prototype extracts exactly as the class does
   * with its defaults. In general only the detector differs: it is SIFT
   * whatever `args.features` says.
   */
  lemma OldExtractionIsDefaultExtraction(o: Options, finders: set<string>)
    ensures OldSettings(MainArgs, finders) == SettingsOf(Defaults, finders)
    ensures OldSettings(o, finders) == SettingsOf(o.(workMegapix := 0.6, seamMegapix := 0.1), finders).(finder := "sift")
  {
  }

  // ----------------------------------------------------------- stitch_frame

  /** What `stitch_frame` returns: the panorama zoomed by `zoom`, or nothing in time-lapse mode. */
  datatype Shown = Shown(panorama: Panorama, zoom: real) | NothingShown

  /** The caller's cameras after a call, the flag left on `args`, and the result. */
  datatype CallOutcome = CallOutcome(cameras: seq<CameraParams>, isComposeScaleSet: bool, result: Result<Shown>)

  /**
   * The per-frame part of a call once the cameras are rescaled. The frames
   * are fed in order. Frame `idx` reads `masks_warped[idx]` first. With the
   * blender in place, time-lapse mode exits at the first frame.
   */
  function Feed(o: Options, frames: seq<Image>, cams: seq<CameraParams>, cs: real, warper: Warper,
                rois: seq<RoiRequest>, masksCount: nat, sqrt: real -> real, roiOf: seq<RoiRequest> -> Rect): (r: Result<Panorama>)
    requires 0 < |frames| <= |cams|
    ensures r.Ok? <==> |frames| <= masksCount && !o.timelapse
    ensures r.Ok? ==> r.value.fed == Feeds(frames, cams, cs) && r.value.warper == warper && r.value.rois == rois
  {
    if masksCount == 0 then Err(IndexError)
    else if o.timelapse then Err(TimelapseExit)
    else if |frames| > masksCount then Err(IndexError)
    else Ok(Panorama(warper, rois, BlenderFor(o, roiOf(rois), sqrt), Feeds(frames, cams, cs)))
  }

  /**
   * `stitch_frame`. A call first resets `args.is_compose_scale_set` and sets
   * it again on its first frame, so every call with frames rescales the
   * caller's cameras by `compose_scale / work_scale`. A call with no frames
   * changes nothing. The warped image scale is the caller's value times the
   * aspect and is not handed back. `widthOf` stands for the width of the
   * image `blender.blend` returns.
   */
  function StitchFrameSpec(o: Options, frames: seq<Image>, sizes: seq<ImgSize>, workScale: real, cams: seq<CameraParams>,
                           wis: real, masksCount: nat, sqrt: real -> real, roiOf: seq<RoiRequest> -> Rect,
                           widthOf: Panorama -> nat): (out: CallOutcome)
    ensures |out.cameras| == |cams|
    ensures out.isComposeScaleSet <==> frames != [] && ComposeScale(o, frames[0], sqrt).Ok?
  {
    if frames == [] then CallOutcome(cams, false, if o.timelapse then Ok(NothingShown) else Err(BlenderIsNone))
    else
      match ComposeScale(o, frames[0], sqrt)
      case Err(f) => CallOutcome(cams, false, Err(f))
      case Ok(cs) =>
        if workScale == 0.0 then CallOutcome(cams, true, Err(ZeroDivision))
        else
          var a := cs / workScale;
          var cams' := RescalePrefix(cams, RescaleCount(|frames|, |cams|, |sizes|), a);
          var result :=
            if |frames| > |cams| || |frames| > |sizes| then Err(IndexError)
            else
              match Feed(o, frames, cams', cs, Warper(o.warpType, Mul(wis, a)), Rois(sizes, cams', cs, |frames|),
                         masksCount, sqrt, roiOf)
              case Err(f) => Err(f)
              case Ok(p) => if widthOf(p) == 0 then Err(ZeroDivision) else Ok(Shown(p, 600.0 / widthOf(p) as real));
          CallOutcome(cams', true, result)
  }

  /**
   * `stitch_frame` on the caller's `args` and camera objects, which it
   * updates in place. The first frame's branch runs before the per-frame loop
   * in `FeedFrames`.
   */
  method StitchFrame(args: Args, frames: seq<Image>, sizes: seq<ImgSize>, workScale: real, cameras: array<CameraParams>,
                     wis: real, masksCount: nat, sqrt: real -> real, roiOf: seq<RoiRequest> -> Rect,
                     widthOf: Panorama -> nat) returns (r: Result<Shown>)
    modifies args, cameras
    ensures var out := StitchFrameSpec(args.opts, frames, sizes, workScale, old(cameras[..]), wis, masksCount, sqrt, roiOf, widthOf);
      cameras[..] == out.cameras && args.isComposeScaleSet == out.isComposeScaleSet && r == out.result
  {
    args.isComposeScaleSet := false;
    if frames == [] {
      // the loop does not run: `blender` stays None
      return if args.opts.timelapse then Ok(NothingShown) else Err(BlenderIsNone);
    }
    var composeScale := 1.0;
    if args.opts.composeMegapix > 0.0 {
      var s := MegapixScale(args.opts.composeMegapix, frames[0], sqrt);
      if s.Err? {
        return Err(s.failure);
      }
      composeScale := s.value;
    }
    args.isComposeScaleSet := true;
    if workScale == 0.0 {
      return Err(ZeroDivision);
    }
    var composeWorkAspect := composeScale / workScale;
    var warper := Warper(args.opts.warpType, Mul(wis, composeWorkAspect));
    var rois, ok := RescaleCameras(cameras, sizes, |frames|, composeWorkAspect, composeScale);
    if !ok {
      return Err(IndexError);
    }
    var p := FeedFrames(args.opts, frames, cameras[..], composeScale, warper, rois, masksCount, sqrt, roiOf);
    if p.Err? {
      return Err(p.failure);
    }
    var width := widthOf(p.value);
    if width == 0 {
      return Err(ZeroDivision);   // `600.0 / result.shape[1]`
    }
    return Ok(Shown(p.value, 600.0 / width as real));
  }

  /**
   * The first frame's loop over `range(len(cv_images))`: camera `i` is
   * rescaled in place, then its frame size is read and `warpRoi` asked for
   * its rectangle. A missing camera or size raises IndexError; the cameras
   * already rescaled stay rescaled.
   */
  method RescaleCameras(cameras: array<CameraParams>, sizes: seq<ImgSize>, n: nat, a: real, cs: real)
    returns (rois: seq<RoiRequest>, ok: bool)
    modifies cameras
    ensures cameras[..] == RescalePrefix(old(cameras[..]), RescaleCount(n, cameras.Length, |sizes|), a)
    ensures ok <==> n <= cameras.Length && n <= |sizes|
    ensures ok ==> rois == Rois(sizes, cameras[..], cs, n)
  {
    ghost var cams := cameras[..];
    rois := [];
    var i := 0;
    while i < n
      invariant 0 <= i <= n && i <= cameras.Length && i <= |sizes|
      invariant cameras[..] == RescalePrefix(cams, i, a)
      invariant |rois| == i
      invariant forall k :: 0 <= k < i ==> rois[k] == RoiRequest(sizes[k], cs, K(cameras[k]), cameras[k].R)
    {
      if i >= cameras.Length {
        assert RescaleCount(n, cameras.Length, |sizes|) == i;
        return rois, false;
      }
      cameras[i] := Rescaled(cameras[i], a);
      if i >= |sizes| {
        assert cameras[..] == RescalePrefix(cams, i + 1, a);
        assert RescaleCount(n, cameras.Length, |sizes|) == i + 1;
        return rois, false;
      }
      rois := rois + [RoiRequest(sizes[i], cs, K(cameras[i]), cameras[i].R)];
      i := i + 1;
      assert cameras[..] == RescalePrefix(cams, i, a);
    }
    assert rois == Rois(sizes, cameras[..], cs, n);
    return rois, true;
  }

  /**
   * The `for idx, igm in enumerate(cv_images)` loop after the first frame's
   * rescale: resize, warp, read the seam mask, create the blender on the
   * first frame outside time-lapse mode, then exit in time-lapse mode or feed.
   */
  method FeedFrames(o: Options, frames: seq<Image>, cams: seq<CameraParams>, cs: real, warper: Warper,
                    rois: seq<RoiRequest>, masksCount: nat, sqrt: real -> real, roiOf: seq<RoiRequest> -> Rect)
    returns (r: Result<Panorama>)
    requires 0 < |frames| <= |cams|
    ensures r == Feed(o, frames, cams, cs, warper, rois, masksCount, sqrt, roiOf)
  {
    var fed: seq<FrameWarp> := [];
    var blender: Option<Blender> := None;
    var idx := 0;
    while idx < |frames|
      invariant 0 <= idx <= |frames|
      invariant idx == 0 ==> blender.None?
      invariant idx > 0 ==> !o.timelapse && idx <= masksCount && blender == Some(BlenderFor(o, roiOf(rois), sqrt))
      invariant |fed| == idx
      invariant forall k :: 0 <= k < idx ==> fed[k] == FrameWarp(ComposeImage(frames[k], cs), K(cams[k]), cams[k].R)
    {
      fed := fed + [FrameWarp(ComposeImage(frames[idx], cs), K(cams[idx]), cams[idx].R)];
      if idx >= masksCount {
        return Err(IndexError);   // `masks_warped[idx]`
      }
      if blender.None? && !o.timelapse {
        blender := Some(BlenderFor(o, roiOf(rois), sqrt));
      }
      if o.timelapse {
        return Err(TimelapseExit);
      }
      idx := idx + 1;
    }
    assert fed == Feeds(frames, cams, cs);
    return Ok(Panorama(warper, rois, blender.value, fed));
  }

  // ------------------------------------------------------ stitch_frame facts

  /**
   * The camera rescale persists across calls, the warped image scale does
   * not. Two calls with the same frames and the same caller's scale leave the
   * cameras multiplied by the square of the aspect. Both calls build their
   * warper at the caller's scale times the aspect once.
   */
  lemma {:induction false} CamerasCompoundScaleDoesNot(o: Options, frames: seq<Image>, sizes: seq<ImgSize>, workScale: real,
                                                       cams: seq<CameraParams>, wis: real, masksCount: nat, sqrt: real -> real,
                                                       roiOf: seq<RoiRequest> -> Rect, widthOf: Panorama -> nat)
    requires frames != [] && workScale != 0.0 && ComposeScale(o, frames[0], sqrt).Ok?
    requires |frames| == |cams| <= |sizes|
    ensures var a := ComposeScale(o, frames[0], sqrt).value / workScale;
            var out1 := StitchFrameSpec(o, frames, sizes, workScale, cams, wis, masksCount, sqrt, roiOf, widthOf);
            var out2 := StitchFrameSpec(o, frames, sizes, workScale, out1.cameras, wis, masksCount, sqrt, roiOf, widthOf);
      && out1.cameras == RescalePrefix(cams, |cams|, a)
      && out2.cameras == RescalePrefix(cams, |cams|, Mul(a, a))
      && (out1.result.Ok? ==> out1.result.value.panorama.warper == Warper(o.warpType, Mul(wis, a)))
      && (out2.result.Ok? ==> out2.result.value.panorama.warper == Warper(o.warpType, Mul(wis, a)))
  {
    var a := ComposeScale(o, frames[0], sqrt).value / workScale;
    RescalePrefixTwice(cams, a);
  }

  /**
   * How a call with frames ends. It stops with IndexError when a frame has
   * no camera, no size or no seam mask. In time-lapse mode it exits at the
   * first frame. Otherwise it zooms the blended panorama to 600 pixels wide.
   * Whatever the result, the cameras the loop reaches are rescaled by
   * `compose_scale / work_scale` and the rest are kept; every frame is fed
   * with its rescaled camera, and no rotation changes.
   */
  lemma StitchFrameResult(o: Options, frames: seq<Image>, sizes: seq<ImgSize>, workScale: real, cams: seq<CameraParams>,
                          wis: real, masksCount: nat, sqrt: real -> real, roiOf: seq<RoiRequest> -> Rect,
                          widthOf: Panorama -> nat)
    requires frames != [] && workScale != 0.0 && ComposeScale(o, frames[0], sqrt).Ok?
    ensures var out := StitchFrameSpec(o, frames, sizes, workScale, cams, wis, masksCount, sqrt, roiOf, widthOf);
            var cs := ComposeScale(o, frames[0], sqrt).value;
      && out.cameras == RescalePrefix(cams, RescaleCount(|frames|, |cams|, |sizes|), cs / workScale)
      && Rotations(out.cameras) == Rotations(cams)
      && (|frames| > |cams| || |frames| > |sizes| || masksCount == 0 ==> out.result == Err(IndexError))
      && (|frames| <= |cams| && |frames| <= |sizes| && masksCount > 0 && o.timelapse ==> out.result == Err(TimelapseExit))
      && (out.result.Ok? ==>
            && out.result.value.Shown?
            && out.result.value.zoom * (widthOf(out.result.value.panorama) as real) == 600.0
            && out.result.value.panorama.fed == Feeds(frames, out.cameras, cs)
            && out.result.value.panorama.rois == Rois(sizes, out.cameras, cs, |frames|))
  {
    var cs := ComposeScale(o, frames[0], sqrt).value;
    RescalePrefixKeepsRotations(cams, RescaleCount(|frames|, |cams|, |sizes|), cs / workScale);
  }

  // ------------------------------------------------------------------- main

  /** `[xs[i] for i in indices]`; an index past the end raises IndexError. */
  function SubsetByIndices<T>(xs: seq<T>, indices: seq<nat>): (r: Result<seq<T>>)
    ensures r.Ok? <==> forall i :: 0 <= i < |indices| ==> indices[i] < |xs|
    ensures r.Err? ==> r.failure == IndexError
  {
    if exists i :: 0 <= i < |indices| && indices[i] >= |xs| then Err(IndexError)
    else Ok(seq(|indices|, i requires 0 <= i < |indices| => xs[indices[i]]))
  }

  /** The subset holds one element per index, in the order of the indices. */
  lemma SubsetElements<T>(xs: seq<T>, indices: seq<nat>, i: nat)
    requires SubsetByIndices(xs, indices).Ok? && i < |indices|
    ensures |SubsetByIndices(xs, indices).value| == |indices|
    ensures SubsetByIndices(xs, indices).value[i] == xs[indices[i]]
  {
  }

  /** Keeping every index in order keeps the whole list. */
  lemma SubsetOfAllIndices<T>(xs: seq<T>, indices: seq<nat>)
    requires |indices| == |xs| && forall i :: 0 <= i < |xs| ==> indices[i] == i
    ensures SubsetByIndices(xs, indices) == Ok(xs)
  {
    assert SubsetByIndices(xs, indices).value == xs;
  }

  /** Taking a subset of a subset is taking the subset at the composed indices. */
  lemma SubsetOfSubset<T>(xs: seq<T>, outer: seq<nat>, inner: seq<nat>)
    requires SubsetByIndices(xs, outer).Ok? && SubsetByIndices(SubsetByIndices(xs, outer).value, inner).Ok?
    ensures var composed := seq(|inner|, j requires 0 <= j < |inner| => outer[inner[j]]);
      SubsetByIndices(SubsetByIndices(xs, outer).value, inner) == SubsetByIndices(xs, composed)
  {
    var mid := SubsetByIndices(xs, outer).value;
    var composed := seq(|inner|, j requires 0 <= j < |inner| => outer[inner[j]]);
    forall j | 0 <= j < |inner|
      ensures composed[j] < |xs|
    {
      assert inner[j] < |mid|;
    }
    assert SubsetByIndices(mid, inner).value == SubsetByIndices(xs, composed).value;
  }

  /**
   * The loop that rebuilds `images` and `full_img_sizes` from `args.indices`,
   * both lists in the one loop.
   */
  method SelectSubset(images: seq<ScaledImage>, sizes: seq<ImgSize>, indices: seq<nat>)
    returns (r: Result<(seq<ScaledImage>, seq<ImgSize>)>)
    ensures r.Ok? <==> SubsetByIndices(images, indices).Ok? && SubsetByIndices(sizes, indices).Ok?
    ensures r.Ok? ==> r.value == (SubsetByIndices(images, indices).value, SubsetByIndices(sizes, indices).value)
    ensures r.Err? ==> r.failure == IndexError
  {
    var imgSubset: seq<ScaledImage> := [];
    var sizesSubset: seq<ImgSize> := [];
    var i := 0;
    while i < |indices|
      invariant 0 <= i <= |indices|
      invariant |imgSubset| == |sizesSubset| == i
      invariant forall k :: 0 <= k < i ==> indices[k] < |images| && indices[k] < |sizes|
      invariant forall k :: 0 <= k < i ==> imgSubset[k] == images[indices[k]] && sizesSubset[k] == sizes[indices[k]]
    {
      if indices[i] >= |images| || indices[i] >= |sizes| {
        return Err(IndexError);
      }
      imgSubset := imgSubset + [images[indices[i]]];
      sizesSubset := sizesSubset + [sizes[indices[i]]];
      i := i + 1;
    }
    assert imgSubset == SubsetByIndices(images, indices).value;
    assert sizesSubset == SubsetByIndices(sizes, indices).value;
    return Ok((imgSubset, sizesSubset));
  }

  /** What `main` holds once calibrated, before the first `stitch_frame`. */
  datatype MainState = MainState(
    extraction: Extraction,          // the extraction of every initial frame
    images: seq<ScaledImage>,        // the seam images the biggest component keeps
    fullImgSizes: seq<ImgSize>,      // their full sizes
    cameras: seq<CameraParams>,      // every adjusted and wave-corrected camera
    sortedFocals: seq<real>,         // `focals` after `focals.sort()`
    warpedImageScale: real,
    refineMask: Matrix3,
    seamWarper: Warper,
    seamWarps: seq<SeamWarp>,
    compensator: Compensator)

  /** The initial frames as successful reads. */
  function Readable(frames: seq<Image>): (r: seq<Option<Image>>)
    ensures |r| == |frames| && forall i :: 0 <= i < |frames| ==> r[i] == Some(frames[i])
  {
    seq(|frames|, i requires 0 <= i < |frames| => Some(frames[i]))
  }

  /**
   * `main` from the extraction to the compensator, with its stopping points
   * in order: extraction; estimation failure; the refinement mask; adjustment
   * failure; the median of no focal lengths; wave correction; an index past
   * the end of the images; fewer than two kept images; fewer cameras than
   * kept images; an unknown compensator key.
   */
  function MainCalibrate(o: Options, frames: seq<Image>, cv: OpenCv, sqrt: real -> real): (r: Result<MainState>)
    ensures r.Ok? ==> var st := r.value;
      && |st.images| == |st.fullImgSizes| == |st.seamWarps| == |cv.biggestComponent| >= 2
      && |st.cameras| >= |st.images|
      && |st.extraction.fullImgSizes| == |frames|
      && st.extraction.workScale > 0.0
  {
    match Extract(OldSettings(o, cv.finders), Readable(frames), sqrt)
    case Err(f) => Err(f)
    case Ok(e) =>
      if cv.estimated.None? then Err(EstimationFailed)
      else
        match RefineMask(o.baRefineMask)
        case Err(f) => Err(f)
        case Ok(mask) =>
          if cv.adjusted.None? then Err(AdjustingFailed)
          else
            var adjusted := cv.adjusted.value;
            match Median.MedianFocal(Focals(adjusted))
            case Err(f) => Err(f)
            case Ok(wis) =>
              match WaveCorrected(o.waveCorrect, adjusted, cv.waveCorrected)
              case Err(f) => Err(f)
              case Ok(cams) =>
                var imgs := SubsetByIndices(e.seamImages, cv.biggestComponent);
                var sizes := SubsetByIndices(e.fullImgSizes, cv.biggestComponent);
                if imgs.Err? || sizes.Err? then Err(IndexError)
                else if |sizes.value| < 2 then Err(NeedMoreImages)
                else if |cams| < |imgs.value| then Err(IndexError)
                else
                  match GetCompensator(o.exposComp, o.exposCompNrFeeds, o.exposCompBlockSize)
                  case Err(f) => Err(f)
                  case Ok(c) =>
                    Ok(MainState(e, imgs.value, sizes.value, cams, Median.Sort(Focals(adjusted)), wis, mask,
                                 Warper(o.warpType, Mul(wis, e.seamWorkAspect)),
                                 SeamWarps(imgs.value, cams, e.seamWorkAspect), c))
  }

  /** `main`'s calibration, statement by statement. */
  method CalibrateMain(o: Options, frames: seq<Image>, cv: OpenCv, sqrt: real -> real) returns (r: Result<MainState>)
    ensures r == MainCalibrate(o, frames, cv, sqrt)
  {
    var ex := ExtractFeatures(OldSettings(o, cv.finders), Readable(frames), sqrt);
    if ex.Err? {
      return Err(ex.failure);
    }
    var e := ex.value;
    if cv.estimated.None? {
      return Err(EstimationFailed);
    }
    var mask := RefineMask(o.baRefineMask);
    if mask.Err? {
      return Err(mask.failure);
    }
    if cv.adjusted.None? {
      return Err(AdjustingFailed);
    }
    var cams := cv.adjusted.value;
    var focals := Median.Sort(Focals(cams));
    if focals == [] {
      return Err(IndexError);   // `focals[len(focals) // 2]` of an empty list
    }
    var n := |focals|;
    var wis := if n % 2 == 1 then focals[n / 2] else (focals[n / 2] + focals[n / 2 - 1]) / 2.0;
    assert Median.MedianFocal(Focals(cams)) == Ok(wis);
    if o.waveCorrect.Some? {
      var corrected := CorrectWaves(o.waveCorrect.value, cams, cv.waveCorrected);
      if corrected.Err? {
        return Err(corrected.failure);
      }
      cams := corrected.value;
    }
    var subset := SelectSubset(e.seamImages, e.fullImgSizes, cv.biggestComponent);
    if subset.Err? {
      return Err(subset.failure);
    }
    var (images, sizes) := subset.value;
    if |sizes| < 2 {
      return Err(NeedMoreImages);
    }
    var warper := Warper(o.warpType, Mul(wis, e.seamWorkAspect));
    var warps := WarpSeams(images, cams, e.seamWorkAspect);
    if warps.Err? {
      return Err(warps.failure);
    }
    var c := GetCompensator(o.exposComp, o.exposCompNrFeeds, o.exposCompBlockSize);
    if c.Err? {
      return Err(c.failure);
    }
    return Ok(MainState(e, images, sizes, cams, focals, wis, mask.value, warper, warps.value, c.value));
  }

  /**
   * The warped image scale is a median of the calibrated cameras' focal
   * lengths, and `focals` holds them sorted. Wave correction does not touch
   * a focal length, so computing the median before it makes no difference.
   */
  lemma MainScaleIsMedianFocal(o: Options, frames: seq<Image>, cv: OpenCv, sqrt: real -> real)
    requires MainCalibrate(o, frames, cv, sqrt).Ok?
    ensures var st := MainCalibrate(o, frames, cv, sqrt).value;
      && st.sortedFocals != [] && Median.IsSorted(st.sortedFocals)
      && st.warpedImageScale == Median.Middle(st.sortedFocals)
      && multiset(st.sortedFocals) == multiset(Focals(st.cameras))
      && Median.IsMedian(Focals(st.cameras), st.warpedImageScale)
  {
    var st := MainCalibrate(o, frames, cv, sqrt).value;
    var adjusted := cv.adjusted.value;
    assert Focals(st.cameras) == Focals(adjusted);
    Median.SortSorts(Focals(adjusted));
    Median.MedianFocalIsMedian(Focals(adjusted));
  }

  /**
   * The kept images are the indexed ones, but the seam warps pair kept image
   * `i` with camera `i` of the full camera list, not with camera
   * `indices[i]`.
   */
  lemma SeamWarpsUseUnprunedCameras(o: Options, frames: seq<Image>, cv: OpenCv, sqrt: real -> real, i: nat)
    requires MainCalibrate(o, frames, cv, sqrt).Ok?
    requires i < |MainCalibrate(o, frames, cv, sqrt).value.images|
    ensures var st := MainCalibrate(o, frames, cv, sqrt).value;
            var e := st.extraction;
      && |st.images| == |st.fullImgSizes| == |st.seamWarps| == |cv.biggestComponent| >= 2
      && |e.seamImages| == |e.fullImgSizes| == |frames|
      && cv.biggestComponent[i] < |frames|
      && st.images[i] == e.seamImages[cv.biggestComponent[i]]
      && st.fullImgSizes[i] == e.fullImgSizes[cv.biggestComponent[i]]
      && st.seamWarps[i] == SeamWarp(st.images[i], ScaleK(K(st.cameras[i]), e.seamWorkAspect), st.cameras[i].R)
  {
    var st := MainCalibrate(o, frames, cv, sqrt).value;
    var e := st.extraction;
    SubsetElements(e.seamImages, cv.biggestComponent, i);
    SubsetElements(e.fullImgSizes, cv.biggestComponent, i);
  }

  /**
   * What the stitching loop of `main` leaves: the cameras, the results the
   * loop shows and writes to the video, and the error that ended it.
   */
  datatype RunOutcome = RunOutcome(cameras: seq<CameraParams>, shown: seq<Shown>, failure: Option<Failure>)

  /**
   * `stitch_frame` on each set of frames in turn, always with the same
   * warped image scale and with the cameras the previous call left. The
   * first error propagates out of `main`.
   */
  function Run(o: Options, batches: seq<seq<Image>>, sizes: seq<ImgSize>, workScale: real, cams: seq<CameraParams>,
               wis: real, masksCount: nat, sqrt: real -> real, roiOf: seq<RoiRequest> -> Rect,
               widthOf: Panorama -> nat): (r: RunOutcome)
    ensures |r.cameras| == |cams|
    ensures |r.shown| <= |batches|
    ensures r.failure.None? ==> |r.shown| == |batches|
    decreases |batches|
  {
    if batches == [] then RunOutcome(cams, [], None)
    else
      var out := StitchFrameSpec(o, batches[0], sizes, workScale, cams, wis, masksCount, sqrt, roiOf, widthOf);
      if out.result.Err? then RunOutcome(out.cameras, [], Some(out.result.failure))
      else
        var rest := Run(o, batches[1..], sizes, workScale, out.cameras, wis, masksCount, sqrt, roiOf, widthOf);
        RunOutcome(rest.cameras, [out.result.value] + rest.shown, rest.failure)
  }

  /** One pass of the loop: `Run` from pass `k` is that pass's call followed by `Run` from pass `k + 1`. */
  lemma RunStep(o: Options, batches: seq<seq<Image>>, k: nat, sizes: seq<ImgSize>, workScale: real,
                cams: seq<CameraParams>, wis: real, masksCount: nat, sqrt: real -> real,
                roiOf: seq<RoiRequest> -> Rect, widthOf: Panorama -> nat)
    requires k < |batches|
    ensures var out := StitchFrameSpec(o, batches[k], sizes, workScale, cams, wis, masksCount, sqrt, roiOf, widthOf);
      var rest := Run(o, batches[k + 1..], sizes, workScale, out.cameras, wis, masksCount, sqrt, roiOf, widthOf);
      Run(o, batches[k..], sizes, workScale, cams, wis, masksCount, sqrt, roiOf, widthOf)
        == if out.result.Err? then RunOutcome(out.cameras, [], Some(out.result.failure))
           else RunOutcome(rest.cameras, [out.result.value] + rest.shown, rest.failure)
  {
    assert batches[k..][0] == batches[k] && batches[k..][1..] == batches[k + 1..];
  }

  /** One pass of the loop: `stitch_frame` on the `k`-th set of frames, as one step of `Run`. */
  method StitchPass(args: Args, cameras: array<CameraParams>, batches: seq<seq<Image>>, k: nat, sizes: seq<ImgSize>,
                    workScale: real, wis: real, masksCount: nat, sqrt: real -> real,
                    roiOf: seq<RoiRequest> -> Rect, widthOf: Panorama -> nat) returns (r: Result<Shown>)
    requires k < |batches|
    modifies args, cameras
    ensures var run := Run(args.opts, batches[k..], sizes, workScale, old(cameras[..]), wis, masksCount, sqrt, roiOf, widthOf);
      var rest := Run(args.opts, batches[k + 1..], sizes, workScale, cameras[..], wis, masksCount, sqrt, roiOf, widthOf);
      run == if r.Err? then RunOutcome(cameras[..], [], Some(r.failure))
             else RunOutcome(rest.cameras, [r.value] + rest.shown, rest.failure)
  {
    RunStep(args.opts, batches, k, sizes, workScale, cameras[..], wis, masksCount, sqrt, roiOf, widthOf);
    r := StitchFrame(args, batches[k], sizes, workScale, cameras, wis, masksCount, sqrt, roiOf, widthOf);
  }

  /**
   * The `while True` loop: each pass reads
   * the next frames, recomputes the warped image scale from the sorted
   * `focals` and stitches, so every call gets their middle value. The run
   * ends when the frames run out or a call raises.
   */
  method StitchLoop(args: Args, cameras: array<CameraParams>, batches: seq<seq<Image>>, sizes: seq<ImgSize>,
                    workScale: real, focals: seq<real>, masksCount: nat, sqrt: real -> real,
                    roiOf: seq<RoiRequest> -> Rect, widthOf: Panorama -> nat)
    returns (shown: seq<Shown>, failure: Option<Failure>)
    requires focals != []
    modifies args, cameras
    ensures var run := Run(args.opts, batches, sizes, workScale, old(cameras[..]), Median.Middle(focals), masksCount,
                           sqrt, roiOf, widthOf);
      cameras[..] == run.cameras && shown == run.shown && failure == run.failure
  {
    ghost var middle := Median.Middle(focals);
    ghost var whole := Run(args.opts, batches, sizes, workScale, cameras[..], middle, masksCount, sqrt, roiOf, widthOf);
    shown, failure := [], None;
    var k := 0;
    while k < |batches|
      invariant 0 <= k <= |batches|
      invariant var rest := Run(args.opts, batches[k..], sizes, workScale, cameras[..], middle,
                                masksCount, sqrt, roiOf, widthOf);
        whole == RunOutcome(rest.cameras, shown + rest.shown, rest.failure)
    {
      var wis := Median.Middle(focals);
      assert wis == middle;
      var r := StitchPass(args, cameras, batches, k, sizes, workScale, wis, masksCount, sqrt, roiOf, widthOf);
      if r.Err? {
        failure := Some(r.failure);
        return;
      }
      ghost var rest := Run(args.opts, batches[k + 1..], sizes, workScale, cameras[..], wis, masksCount, sqrt, roiOf, widthOf);
      assert shown + ([r.value] + rest.shown) == (shown + [r.value]) + rest.shown;
      shown := shown + [r.value];
      k := k + 1;
    }
  }

  /**
   * `main` on the initial frames and the later ones, with `main`'s own
   * arguments. A calibration failure ends it before any stitching. Then one
   * `stitch_frame` call on the initial frames, whose result only sizes the
   * video writer and is neither shown nor written; an error there ends `main`.
   * Then the loop over the later frames, with the cameras that call left.
   */
  function MainRun(frames: seq<Image>, later: seq<seq<Image>>, cv: OpenCv, sqrt: real -> real,
                roiOf: seq<RoiRequest> -> Rect, widthOf: Panorama -> nat): (r: Result<RunOutcome>)
    ensures r.Err? <==> MainCalibrate(MainArgs, frames, cv, sqrt).Err?
    ensures r.Err? ==> r.failure == MainCalibrate(MainArgs, frames, cv, sqrt).failure
    ensures r.Ok? ==> |r.value.cameras| == |MainCalibrate(MainArgs, frames, cv, sqrt).value.cameras|
    ensures r.Ok? ==> |r.value.shown| <= |later|
    ensures r.Ok? && r.value.failure.None? ==> |r.value.shown| == |later|
  {
    match MainCalibrate(MainArgs, frames, cv, sqrt)
    case Err(f) => Err(f)
    case Ok(st) =>
      var wis := Median.Middle(st.sortedFocals);
      var first := StitchFrameSpec(MainArgs, frames, st.fullImgSizes, st.extraction.workScale, st.cameras, wis,
                                   |st.seamWarps|, sqrt, roiOf, widthOf);
      if first.result.Err? then Ok(RunOutcome(first.cameras, [], Some(first.result.failure)))
      else Ok(Run(MainArgs, later, st.fullImgSizes, st.extraction.workScale, first.cameras, wis, |st.seamWarps|,
                  sqrt, roiOf, widthOf))
  }

  /**
   * `main`: calibrate, make fresh camera objects, stitch the initial frames
   * once to size the video writer, then run the loop on the later sets.
   */
  method StitchVideos(frames: seq<Image>, later: seq<seq<Image>>, cv: OpenCv, sqrt: real -> real,
                      roiOf: seq<RoiRequest> -> Rect, widthOf: Panorama -> nat) returns (r: Result<RunOutcome>)
    ensures r == MainRun(frames, later, cv, sqrt, roiOf, widthOf)
  {
    var c := CalibrateMain(MainArgs, frames, cv, sqrt);
    if c.Err? {
      return Err(c.failure);
    }
    var st := c.value;
    MainScaleIsMedianFocal(MainArgs, frames, cv, sqrt);
    var args := new Args(MainArgs);
    var cams := st.cameras;
    var cameras := new CameraParams[|cams|](i requires 0 <= i < |cams| => cams[i]);
    assert cameras[..] == cams;
    var first := StitchFrame(args, frames, st.fullImgSizes, st.extraction.workScale, cameras,
                             Median.Middle(st.sortedFocals), |st.seamWarps|, sqrt, roiOf, widthOf);
    if first.Err? {
      return Ok(RunOutcome(cameras[..], [], Some(first.failure)));
    }
    var shown, failure := StitchLoop(args, cameras, later, st.fullImgSizes, st.extraction.workScale,
                                     st.sortedFocals, |st.seamWarps|, sqrt, roiOf, widthOf);
    return Ok(RunOutcome(cameras[..], shown, failure));
  }

  /**
   * When the biggest component leaves out a frame, `main` stops at its first
   * `stitch_frame`. That call is handed every initial frame but only the kept
   * frame sizes, so it raises IndexError before the loop shows anything.
   */
  lemma PrunedFrameStopsFirstCall(frames: seq<Image>, later: seq<seq<Image>>, cv: OpenCv, sqrt: real -> real,
                                  roiOf: seq<RoiRequest> -> Rect, widthOf: Panorama -> nat)
    requires MainCalibrate(MainArgs, frames, cv, sqrt).Ok?
    requires |cv.biggestComponent| < |frames|
    ensures MainRun(frames, later, cv, sqrt, roiOf, widthOf).Ok?
    ensures MainRun(frames, later, cv, sqrt, roiOf, widthOf).value.shown == []
    ensures MainRun(frames, later, cv, sqrt, roiOf, widthOf).value.failure == Some(IndexError)
  {
    var st := MainCalibrate(MainArgs, frames, cv, sqrt).value;
    assert frames != [];
    assert ComposeScale(MainArgs, frames[0], sqrt) == Ok(1.0);
    assert |st.fullImgSizes| == |cv.biggestComponent|;
  }
}
