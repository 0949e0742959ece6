/**
 * The frame stitcher object. Its constructor calibrates once from a set of
 * initial frames. It extracts features, estimates and bundle-adjusts the
 * cameras, applies wave correction, and prepares the seam-scale warps and the
 * exposure compensator. After that, `stitch_frames` composes each new set of
 * frames with the cameras the object holds.
 *
 * The OpenCV calls whose results the model cannot compute are inputs, gathered
 * in `OpenCv`. The OpenCV calls whose results are not inspected are recorded
 * as the requests they receive (`SeamWarp`, `RoiRequest`, `FrameWarp`).
 */
module FrameStitching {
  import opened Common
  import opened Choices
  import opened Cameras
  import opened Extraction
  import Median
  import MedianScaling

  /** `cv.detail.WAVE_CORRECT_HORIZ` and `cv.detail.WAVE_CORRECT_VERT`; `None` switches correction off. */
  datatype WaveCorrectKind = WaveCorrectHoriz | WaveCorrectVert

  /** The keyword arguments the constructor reads. */
  datatype Options = Options(
    matcherType: string,
    matchConf: Option<real>,
    featuresType: string,
    rangeWidth: int,
    exposComp: string,
    exposCompNrFeeds: int,
    exposCompBlockSize: int,
    composeMegapix: real,
    confThresh: real,
    baRefineMask: string,
    waveCorrect: Option<WaveCorrectKind>,
    warpType: string,
    blendType: string,
    blendStrength: real,
    timelapse: bool,
    workMegapix: real,
    seamMegapix: real)

  /** The value every keyword takes when it is not passed. */
  const Defaults: Options :=
    Options("homography", None, "sift", -1, "channel_blocks", 1, 32, -1.0, 0.3, "xxxxx",
            Some(WaveCorrectHoriz), "cylindrical", "feather", 50.0, false, 0.6, 0.1)

  /**
   * What the OpenCV build and the calibration calls give back: the detector
   * names available, `leaveBiggestComponent`'s indices, the estimator's and
   * the bundle adjuster's cameras (`None` when they report failure), and the
   * rotations `waveCorrect` returns.
   */
  datatype OpenCv = OpenCv(
    finders: set<string>,
    biggestComponent: seq<nat>,
    estimated: Option<seq<CameraParams>>,
    adjusted: Option<seq<CameraParams>>,
    waveCorrected: seq<Rotation>)

  /** `cv.PyRotationWarper(warp_type, scale)`. */
  datatype Warper = Warper(warpType: string, scale: real)

  /** One `warper.warp` of a seam-scale image (and, with the same K and R, of its mask). */
  datatype SeamWarp = SeamWarp(image: ScaledImage, K: seq<seq<real>>, R: Rotation)

  /** What `prepare_warping_and_blending` stores. */
  datatype Prepared = Prepared(warpedImageScale: real, warper: Warper, seamWarps: seq<SeamWarp>, compensator: Compensator)

  /** Everything the constructor stores on a successful calibration. */
  datatype Calibrated = Calibrated(
    features: seq<ScaledImage>,
    images: seq<ScaledImage>,
    fullImgSizes: seq<ImgSize>,
    seamWorkAspect: real,
    workScale: real,
    matcher: Matcher,
    indices: seq<nat>,
    cameras: seq<CameraParams>,
    refineMask: Matrix3,
    prepared: Prepared)

  /** The extraction settings the object's options select. */
  function SettingsOf(o: Options, finders: set<string>): (s: Settings)
    ensures s.workMegapix == o.workMegapix && s.seamMegapix == o.seamMegapix
    ensures s.finder == o.featuresType && s.finders == finders
    ensures s.matcher == GetMatcher(o.matcherType, o.matchConf, o.featuresType, o.rangeWidth)
  {
    Settings(o.workMegapix, o.seamMegapix, o.featuresType, finders,
             GetMatcher(o.matcherType, o.matchConf, o.featuresType, o.rangeWidth))
  }

  /**
   * Wave correction: each camera gets the rotation at its own index. A rotation
   * list shorter than the camera list raises IndexError.
   */
  function WaveCorrected(kind: Option<WaveCorrectKind>, cams: seq<CameraParams>, rmats: seq<Rotation>): (r: Result<seq<CameraParams>>)
    ensures kind.None? ==> r == Ok(cams)
    ensures kind.Some? ==> (r.Ok? <==> |rmats| >= |cams|)
    ensures r.Err? ==> r.failure == IndexError
  {
    if kind.None? then Ok(cams)
    else if |rmats| < |cams| then Err(IndexError)
    else Ok(seq(|cams|, i requires 0 <= i < |cams| => cams[i].(R := rmats[i])))
  }

  /** The seam warps of the first `|images|` cameras, each with K scaled by the seam/work aspect. */
  function SeamWarps(images: seq<ScaledImage>, cams: seq<CameraParams>, swa: real): (ws: seq<SeamWarp>)
    requires |images| <= |cams|
    ensures |ws| == |images|
    ensures forall i :: 0 <= i < |images| ==>
              ws[i] == SeamWarp(images[i], ScaleK(K(cams[i]), swa), cams[i].R)
  {
    seq(|images|, i requires 0 <= i < |images| => SeamWarp(images[i], ScaleK(K(cams[i]), swa), cams[i].R))
  }

  /**
   * `prepare_warping_and_blending`. The warped image scale is the median focal
   * length. The warper works at that scale times the seam/work aspect. Every
   * image is warped with its own camera, and the compensator comes from the
   * option table. Failures, in source order: no cameras; fewer cameras than
   * images; an unknown compensator key.
   */
  function Prepare(o: Options, images: seq<ScaledImage>, cams: seq<CameraParams>, swa: real): (r: Result<Prepared>)
    ensures r.Ok? <==> cams != [] && |images| <= |cams| && o.exposComp in ExposCompChoices
    ensures r.Err? ==> r.failure == if cams == [] || |cams| < |images| then IndexError else KeyError
    ensures r.Ok? ==> |r.value.seamWarps| == |images|
  {
    match WarpedImageScale(cams)
    case Err(f) => Err(f)
    case Ok(wis) =>
      if |cams| < |images| then Err(IndexError)
      else
        match GetCompensator(o.exposComp, o.exposCompNrFeeds, o.exposCompBlockSize)
        case Err(f) => Err(f)
        case Ok(c) => Ok(Prepared(wis, Warper(o.warpType, Mul(wis, swa)), SeamWarps(images, cams, swa), c))
  }

  /** What calibration has before `prepare_warping_and_blending` runs. */
  datatype Adjusted = Adjusted(extraction: Extraction, refineMask: Matrix3, cameras: seq<CameraParams>)

  /**
   * The constructor up to wave correction, with the source's stopping points
   * in order: extraction; fewer than two frames; estimation failure; a
   * refinement mask shorter than five characters; adjustment failure; wave
   * correction.
   */
  function Adjust(o: Options, frames: seq<Option<Image>>, cv: OpenCv, sqrt: real -> real): (r: Result<Adjusted>)
    ensures r.Ok? ==> var e := r.value.extraction;
      && |e.workImages| == |e.seamImages| == |e.fullImgSizes| == |frames| >= 2
      && e.workScale > 0.0
  {
    match Extract(SettingsOf(o, cv.finders), frames, sqrt)
    case Err(f) => Err(f)
    case Ok(e) =>
      if |e.fullImgSizes| < 2 then Err(NeedMoreImages)
      else if cv.estimated.None? then Err(EstimationFailed)
      else
        match RefineMask(o.baRefineMask)
        case Err(f) => Err(f)
        case Ok(mask) =>
          if cv.adjusted.None? then Err(AdjustingFailed)
          else
            match WaveCorrected(o.waveCorrect, cv.adjusted.value, cv.waveCorrected)
            case Err(f) => Err(f)
            case Ok(cams) => Ok(Adjusted(e, mask, cams))
  }

  /**
   * The whole constructor: `Adjust`, then preparation. A calibrated stitcher
   * holds at least two frames, at least as many cameras as frames, one seam
   * image and one seam warp per frame, a positive work scale, and the biggest
   * component's indices as the matcher gave them; a failure of `Adjust` is
   * the constructor's failure.
   */
  function Calibrate(o: Options, frames: seq<Option<Image>>, cv: OpenCv, sqrt: real -> real): (r: Result<Calibrated>)
    ensures Adjust(o, frames, cv, sqrt).Err? ==> r == Err(Adjust(o, frames, cv, sqrt).failure)
    ensures r.Ok? ==> var c := r.value;
      && |c.fullImgSizes| == |c.images| == |c.features| == |frames| >= 2
      && |c.cameras| >= |c.fullImgSizes|
      && |c.prepared.seamWarps| == |c.images|
      && c.workScale > 0.0
      && c.indices == cv.biggestComponent
  {
    match Adjust(o, frames, cv, sqrt)
    case Err(f) => Err(f)
    case Ok(adj) =>
      var e := adj.extraction;
      match Prepare(o, e.seamImages, adj.cameras, e.seamWorkAspect)
      case Err(f) => Err(f)
      case Ok(p) =>
        Ok(Calibrated(e.workImages, e.seamImages, e.fullImgSizes, e.seamWorkAspect, e.workScale,
                      e.matcher, cv.biggestComponent, adj.cameras, adj.refineMask, p))
  }

  // ------------------------------------------------------- calibration facts

  /**
   * Calibration counts every initial frame, not the frames the biggest
   * component kept. The "need more images" check looks at all frames, and
   * the indices are stored but never used: changing them changes nothing else.
   */
  lemma CalibrationIgnoresComponent(o: Options, frames: seq<Option<Image>>, cv: OpenCv, kept: seq<nat>, sqrt: real -> real)
    ensures var r1 := Calibrate(o, frames, cv, sqrt);
            var r2 := Calibrate(o, frames, cv.(biggestComponent := kept), sqrt);
      && (r1.Ok? <==> r2.Ok?)
      && (r1.Err? ==> r1 == r2)
      && (r1.Ok? ==> r2.value == r1.value.(indices := kept))
  {
    assert Adjust(o, frames, cv, sqrt) == Adjust(o, frames, cv.(biggestComponent := kept), sqrt);
  }

  /** Two readable frames are the fewest that can calibrate; one readable frame always stops. */
  lemma OneFrameNeedsMore(o: Options, frame: Image, cv: OpenCv, sqrt: real -> real)
    requires Extract(SettingsOf(o, cv.finders), [Some(frame)], sqrt).Ok?
    ensures Calibrate(o, [Some(frame)], cv, sqrt) == Err(NeedMoreImages)
  {
  }

  /**
   * The estimator is consulted before the refinement mask is read, and the mask
   * is read before the adjuster's answer: the first failing stage decides the
   * error.
   */
  lemma FailureOrder(o: Options, frames: seq<Option<Image>>, cv: OpenCv, sqrt: real -> real)
    requires Extract(SettingsOf(o, cv.finders), frames, sqrt).Ok? && |frames| >= 2
    ensures cv.estimated.None? ==> Calibrate(o, frames, cv, sqrt) == Err(EstimationFailed)
    ensures cv.estimated.Some? && |o.baRefineMask| < 5 ==> Calibrate(o, frames, cv, sqrt) == Err(IndexError)
    ensures cv.estimated.Some? && |o.baRefineMask| >= 5 && cv.adjusted.None? ==>
              Calibrate(o, frames, cv, sqrt) == Err(AdjustingFailed)
  {
  }

  /**
   * Wave correction replaces the rotations and nothing else: the calibrated
   * cameras are the adjusted ones with their focal lengths, aspects and principal
   * points, and, when correction is on, the corrected rotations in camera order.
   */
  lemma WaveCorrectionOnlyRotates(o: Options, frames: seq<Option<Image>>, cv: OpenCv, sqrt: real -> real)
    requires Calibrate(o, frames, cv, sqrt).Ok?
    ensures var c := Calibrate(o, frames, cv, sqrt).value;
            var adj := cv.adjusted.value;
      && |c.cameras| == |adj|
      && Focals(c.cameras) == Focals(adj)
      && (o.waveCorrect.None? ==> c.cameras == adj)
      && (o.waveCorrect.Some? ==> Rotations(c.cameras) == cv.waveCorrected[..|adj|])
      && (forall i :: 0 <= i < |adj| ==>
            c.cameras[i].aspect == adj[i].aspect && c.cameras[i].ppx == adj[i].ppx && c.cameras[i].ppy == adj[i].ppy)
  {
    var c := Calibrate(o, frames, cv, sqrt).value;
    var adj := cv.adjusted.value;
    if o.waveCorrect.Some? {
      assert Rotations(c.cameras) == cv.waveCorrected[..|adj|];
    }
    assert Focals(c.cameras) == Focals(adj);
  }

  /**
   * The warped image scale is a median of the calibrated focal lengths. The
   * seam warper runs at that scale times the seam/work aspect, and every
   * image is warped with the intrinsics of its camera rescaled by that aspect.
   */
  lemma WarpedScaleIsMedianFocal(o: Options, frames: seq<Option<Image>>, cv: OpenCv, sqrt: real -> real)
    requires Calibrate(o, frames, cv, sqrt).Ok?
    ensures var c := Calibrate(o, frames, cv, sqrt).value;
      && c.cameras != []
      && Median.IsMedian(Focals(c.cameras), c.prepared.warpedImageScale)
      && c.prepared.warper == Warper(o.warpType, Mul(c.prepared.warpedImageScale, c.seamWorkAspect))
      && (forall i :: 0 <= i < |c.images| ==>
            c.prepared.seamWarps[i] == SeamWarp(c.images[i], K(Rescaled(c.cameras[i], c.seamWorkAspect)), c.cameras[i].R))
  {
    var c := Calibrate(o, frames, cv, sqrt).value;
    Median.MedianFocalIsMedian(Focals(c.cameras));
    forall i | 0 <= i < |c.images|
      ensures c.prepared.seamWarps[i] == SeamWarp(c.images[i], K(Rescaled(c.cameras[i], c.seamWorkAspect)), c.cameras[i].R)
    {
      ScaleKIsRescaledK(c.cameras[i], c.seamWorkAspect);
    }
  }

  /**
   * With every keyword left at its default, the strategy choices are the
   * plain matcher at confidence 0.65, the 32x32 blocks channel compensator
   * with one feed, and every parameter refined except the two the mask leaves
   * at zero.
   */
  lemma DefaultChoices()
    ensures SettingsOf(Defaults, {"sift"}).matcher == BestOf2Nearest(true, 0.65)
    ensures GetCompensator(Defaults.exposComp, Defaults.exposCompNrFeeds, Defaults.exposCompBlockSize)
            == Ok(BlocksChannelsCompensator(32, 32, 1))
    ensures RefineMask(Defaults.baRefineMask) == Ok([[1, 1, 1], [0, 1, 1], [0, 0, 0]])
  {
    DefaultRefineMask();
  }

  // ------------------------------------------------------------ composition

  /** `warper.warpRoi(sz, K, R)` where `sz` is a full frame size rounded at the compose scale. */
  datatype RoiRequest = RoiRequest(size: ImgSize, composeScale: real, K: seq<seq<real>>, R: Rotation)

  /** One frame warped at the compose scale, compensated at its index and fed to the blender. */
  datatype FrameWarp = FrameWarp(image: ScaledImage, K: seq<seq<real>>, R: Rotation)

  /** What the blender receives and how it was built. */
  datatype Panorama = Panorama(warper: Warper, rois: seq<RoiRequest>, blender: Blender, fed: seq<FrameWarp>)

  /** `stitch_frames` returns the normalised blend, or `None` in time-lapse mode. */
  datatype Stitched = Blended(panorama: Panorama) | NoOutput

  /** The cameras and warped image scale a call leaves behind, and what it returned. */
  datatype Outcome = Outcome(cameras: seq<CameraParams>, warpedImageScale: real, result: Result<Stitched>)

  /** The compose scale: 1 unless `compose_megapix > 0`, then the capped megapixel scale of the frame. */
  function ComposeScale(o: Options, first: Image, sqrt: real -> real): (r: Result<real>)
    ensures r.Ok? ==> r.value <= 1.0
    ensures o.composeMegapix <= 0.0 ==> r == Ok(1.0)
    ensures r.Err? ==> r.failure == ZeroDivision
  {
    if o.composeMegapix > 0.0 then MegapixScale(o.composeMegapix, first, sqrt) else Ok(1.0)
  }

  /**
   * How many cameras the rescale loop reaches. Camera `i` is rescaled before
   * `full_img_sizes[i]` is read, so a short size list still lets one more
   * camera through than it has entries.
   */
  function RescaleCount(frames: nat, cams: nat, sizes: nat): (n: nat)
    ensures n <= frames && n <= cams && n <= sizes + 1
    ensures n == frames || n == cams || n == sizes + 1
  {
    if frames <= cams && frames <= sizes + 1 then frames
    else if cams <= sizes + 1 then cams
    else sizes + 1
  }

  /** The frame that is warped: resized when the compose scale differs from 1 by more than 0.1. */
  function ComposeImage(frame: Image, cs: real): (img: ScaledImage)
    ensures img.source == frame
    ensures img.Resized? <==> cs > 1.1 || cs < 0.9
  {
    if cs - 1.0 > 0.1 || 1.0 - cs > 0.1 then Resized(frame, cs) else Original(frame)
  }

  function Rois(sizes: seq<ImgSize>, cams: seq<CameraParams>, cs: real, n: nat): (rs: seq<RoiRequest>)
    requires n <= |sizes| && n <= |cams|
    ensures |rs| == n
    ensures forall i :: 0 <= i < n ==> rs[i] == RoiRequest(sizes[i], cs, K(cams[i]), cams[i].R)
  {
    seq(n, i requires 0 <= i < n => RoiRequest(sizes[i], cs, K(cams[i]), cams[i].R))
  }

  function Feeds(frames: seq<Image>, cams: seq<CameraParams>, cs: real): (fs: seq<FrameWarp>)
    requires |frames| <= |cams|
    ensures |fs| == |frames|
    ensures forall i :: 0 <= i < |frames| ==> fs[i] == FrameWarp(ComposeImage(frames[i], cs), K(cams[i]), cams[i].R)
  {
    seq(|frames|, i requires 0 <= i < |frames| => FrameWarp(ComposeImage(frames[i], cs), K(cams[i]), cams[i].R))
  }

  /** The blender built for the result rectangle: blend width `sqrt(w * h) * strength / 100`. */
  function BlenderFor(o: Options, roi: Rect, sqrt: real -> real): (b: Blender)
    ensures b.Feather? ==> o.blendType == "feather" && 0.0 < b.sharpness <= 1.0
    ensures b.MultiBand? ==> o.blendType == "multiband" && b.blendWidth >= 1.0
  {
    ChooseBlender(o.blendType, BlendWidth(sqrt((roi.width * roi.height) as real), o.blendStrength))
  }

  /**
   * Composition once the compose scale `cs` is known. When `rescale` holds,
   * the cameras the loop reaches and the warped image scale are multiplied
   * by `a` first. A frame without a camera or a size raises IndexError.
   * Time-lapse mode has no blender, so the first feed fails.
   */
  function Compose(o: Options, sizes: seq<ImgSize>, cams: seq<CameraParams>, wis: real, cs: real, a: real,
                   rescale: bool, frames: seq<Image>, sqrt: real -> real, roiOf: seq<RoiRequest> -> Rect): (out: Outcome)
    requires frames != []
    ensures |out.cameras| == |cams|
  {
    var wis' := if rescale then Mul(wis, a) else wis;
    var cams' := if rescale then RescalePrefix(cams, RescaleCount(|frames|, |cams|, |sizes|), a) else cams;
    var result :=
      if |frames| > |cams| || |frames| > |sizes| then Err(IndexError)
      else if o.timelapse then Err(BlenderIsNone)
      else
        var rois := Rois(sizes, cams', cs, |frames|);
        Ok(Blended(Panorama(Warper(o.warpType, wis'), rois, BlenderFor(o, roiOf(rois), sqrt), Feeds(frames, cams', cs))));
    Outcome(cams', wis', result)
  }

  /**
   * `stitch_frames` as written. Its "compose scale set" flag is a local reset
   * on every call, so every call with frames multiplies the stored cameras
   * and warped image scale by `compose_scale / work_scale` again. An empty
   * frame list changes nothing, and then fails at `blend` unless in time-lapse
   * mode.
   */
  function Stitch(o: Options, workScale: real, sizes: seq<ImgSize>, cams: seq<CameraParams>, wis: real,
                  frames: seq<Image>, sqrt: real -> real, roiOf: seq<RoiRequest> -> Rect): (out: Outcome)
    requires workScale != 0.0
    ensures |out.cameras| == |cams|
  {
    if frames == [] then Outcome(cams, wis, if o.timelapse then Ok(NoOutput) else Err(BlenderIsNone))
    else
      match ComposeScale(o, frames[0], sqrt)
      case Err(f) => Outcome(cams, wis, Err(f))
      case Ok(cs) => Compose(o, sizes, cams, wis, cs, cs / workScale, true, frames, sqrt, roiOf)
  }

  /** The corrected call also hands back the object's compose-scale flag and scale. */
  datatype OnceOutcome = OnceOutcome(outcome: Outcome, isComposeScaleSet: bool, composeScale: real)

  /**
   * `stitch_frames` with the object's `is_compose_scale_set` and
   * `compose_scale` fields in place of the locals. The first call that
   * reaches a frame fixes the compose scale and rescales. Later calls reuse
   * that scale and leave the cameras alone.
   */
  function StitchOnce(o: Options, workScale: real, sizes: seq<ImgSize>, cams: seq<CameraParams>, wis: real,
                      isSet: bool, cs0: real, frames: seq<Image>, sqrt: real -> real,
                      roiOf: seq<RoiRequest> -> Rect): (out: OnceOutcome)
    requires workScale != 0.0
    ensures |out.outcome.cameras| == |cams|
    ensures isSet ==> out.isComposeScaleSet && out.composeScale == cs0
  {
    if frames == [] then OnceOutcome(Outcome(cams, wis, if o.timelapse then Ok(NoOutput) else Err(BlenderIsNone)), isSet, cs0)
    else if isSet then OnceOutcome(Compose(o, sizes, cams, wis, cs0, 1.0, false, frames, sqrt, roiOf), true, cs0)
    else
      match ComposeScale(o, frames[0], sqrt)
      case Err(f) => OnceOutcome(Outcome(cams, wis, Err(f)), false, cs0)
      case Ok(cs) => OnceOutcome(Compose(o, sizes, cams, wis, cs, cs / workScale, true, frames, sqrt, roiOf), true, cs)
  }

  // ------------------------------------------------------ composition facts

  /**
   * When a call succeeds, and what it reports otherwise. It succeeds exactly
   * when either there are no frames in time-lapse mode, or there are frames,
   * the compose scale can be computed, every frame has a camera and a size,
   * and time-lapse mode is off.
   */
  lemma StitchSucceedsIff(o: Options, workScale: real, sizes: seq<ImgSize>, cams: seq<CameraParams>, wis: real,
                          frames: seq<Image>, sqrt: real -> real, roiOf: seq<RoiRequest> -> Rect)
    requires workScale != 0.0
    ensures var out := Stitch(o, workScale, sizes, cams, wis, frames, sqrt, roiOf);
      && (out.result.Ok? <==>
            (frames == [] && o.timelapse)
            || (frames != [] && ComposeScale(o, frames[0], sqrt).Ok? && |frames| <= |cams| && |frames| <= |sizes| && !o.timelapse))
      && (out.result.Ok? ==> (out.result.value.NoOutput? <==> o.timelapse))
      && (frames != [] && ComposeScale(o, frames[0], sqrt).Ok? && (|frames| > |cams| || |frames| > |sizes|) ==>
            out.result == Err(IndexError))
      && (out.result.Err? && out.result.failure != IndexError && out.result.failure != ZeroDivision ==>
            out.result.failure == BlenderIsNone)
  {
  }

  /**
   * A successful blend feeds every frame, in order, warped with its rescaled
   * camera at the compose scale. The warper runs at the rescaled warped image
   * scale, and rotations are never touched.
   */
  lemma StitchedFeedsUseRescaledCameras(o: Options, workScale: real, sizes: seq<ImgSize>, cams: seq<CameraParams>, wis: real,
                                        frames: seq<Image>, sqrt: real -> real, roiOf: seq<RoiRequest> -> Rect)
    requires workScale != 0.0
    requires Stitch(o, workScale, sizes, cams, wis, frames, sqrt, roiOf).result.Ok? && frames != []
    ensures var out := Stitch(o, workScale, sizes, cams, wis, frames, sqrt, roiOf);
            var cs := ComposeScale(o, frames[0], sqrt).value;
            var a := cs / workScale;
            var p := out.result.value.panorama;
      && out.result.value.Blended?
      && out.warpedImageScale == wis * a
      && p.warper == Warper(o.warpType, out.warpedImageScale)
      && |p.fed| == |p.rois| == |frames|
      && Rotations(out.cameras) == Rotations(cams)
      && (forall i :: 0 <= i < |frames| ==>
            && out.cameras[i] == Rescaled(cams[i], a)
            && p.fed[i] == FrameWarp(ComposeImage(frames[i], cs), K(Rescaled(cams[i], a)), cams[i].R)
            && p.rois[i] == RoiRequest(sizes[i], cs, K(Rescaled(cams[i], a)), cams[i].R))
      && (forall i :: |frames| <= i < |cams| ==> out.cameras[i] == cams[i])
  {
    var cs := ComposeScale(o, frames[0], sqrt).value;
    RescalePrefixKeepsRotations(cams, |frames|, cs / workScale);
  }

  /**
   * The state a call leaves behind, whatever its result. Once the compose
   * scale is known, the warped image scale and every camera the loop reaches
   * are rescaled, and a later failure does not undo that: an IndexError keeps
   * the cameras rescaled up to the missing camera or size, and time-lapse
   * mode fails at the first feed after all of them were rescaled. The object
   * goes on being used after such a failure, so the next call starts from
   * this state. A call with no frames, or whose compose scale fails, changes
   * nothing.
   */
  lemma StitchLeavesRescaledState(o: Options, workScale: real, sizes: seq<ImgSize>, cams: seq<CameraParams>, wis: real,
                                  frames: seq<Image>, sqrt: real -> real, roiOf: seq<RoiRequest> -> Rect)
    requires workScale != 0.0
    ensures var out := Stitch(o, workScale, sizes, cams, wis, frames, sqrt, roiOf);
      && (frames != [] && ComposeScale(o, frames[0], sqrt).Ok? ==>
            var a := ComposeScale(o, frames[0], sqrt).value / workScale;
            && out.cameras == RescalePrefix(cams, RescaleCount(|frames|, |cams|, |sizes|), a)
            && out.warpedImageScale == wis * a
            && (o.timelapse && |frames| <= |cams| && |frames| <= |sizes| ==>
                  out.result == Err(BlenderIsNone) && out.cameras == RescalePrefix(cams, |frames|, a)))
      && (frames == [] || ComposeScale(o, frames[0], sqrt).Err? ==>
            out.cameras == cams && out.warpedImageScale == wis)
  {
  }

  /**
   * By default (`compose_megapix = -1`) frames are composed at full size and
   * the cameras are multiplied by `1 / work_scale`.
   */
  lemma DefaultComposeScale(o: Options, workScale: real, frame: Image, sqrt: real -> real)
    requires o.composeMegapix <= 0.0 && workScale != 0.0
    ensures ComposeScale(o, frame, sqrt) == Ok(1.0)
    ensures ComposeImage(frame, 1.0) == Original(frame)
    ensures 1.0 / workScale * workScale == 1.0
  {
  }

  /**
   * Repeated calls compound. Two calls with the same frames rescale the
   * cameras by the square of the aspect and the warped image scale by its
   * square, where one rescale was intended.
   */
  lemma {:induction false} StitchTwiceCompounds(o: Options, workScale: real, sizes: seq<ImgSize>, cams: seq<CameraParams>,
                                                wis: real, frames: seq<Image>, sqrt: real -> real, roiOf: seq<RoiRequest> -> Rect)
    requires workScale != 0.0 && frames != []
    requires |frames| == |cams| && |frames| <= |sizes|
    requires ComposeScale(o, frames[0], sqrt).Ok?
    ensures var a := ComposeScale(o, frames[0], sqrt).value / workScale;
            var out1 := Stitch(o, workScale, sizes, cams, wis, frames, sqrt, roiOf);
            var out2 := Stitch(o, workScale, sizes, out1.cameras, out1.warpedImageScale, frames, sqrt, roiOf);
      && out1.cameras == RescalePrefix(cams, |cams|, a)
      && out2.cameras == RescalePrefix(cams, |cams|, Mul(a, a))
      && out2.warpedImageScale == wis * (a * a)
  {
    var a := ComposeScale(o, frames[0], sqrt).value / workScale;
    var out1 := Stitch(o, workScale, sizes, cams, wis, frames, sqrt, roiOf);
    assert out1.cameras == RescalePrefix(cams, |cams|, a);
    RescalePrefixTwice(cams, a);
    assert wis * a * a == wis * (a * a);
  }

  /**
   * A call that reaches every camera multiplies the focals and the warped
   * image scale by the same positive aspect, so a scale that was the median
   * focal before the call is the median focal after it, call after call.
   */
  lemma StitchKeepsMedianScale(o: Options, workScale: real, sizes: seq<ImgSize>, cams: seq<CameraParams>,
                               frames: seq<Image>, sqrt: real -> real, roiOf: seq<RoiRequest> -> Rect)
    requires workScale != 0.0 && frames != [] && |frames| == |cams| <= |sizes|
    requires ComposeScale(o, frames[0], sqrt).Ok? && ComposeScale(o, frames[0], sqrt).value / workScale > 0.0
    ensures var out := Stitch(o, workScale, sizes, cams, WarpedImageScale(cams).value, frames, sqrt, roiOf);
      WarpedImageScale(out.cameras) == Ok(out.warpedImageScale)
  {
    var a := ComposeScale(o, frames[0], sqrt).value / workScale;
    var out := Stitch(o, workScale, sizes, cams, WarpedImageScale(cams).value, frames, sqrt, roiOf);
    assert out.cameras == RescalePrefix(cams, |cams|, a);
    MedianScaling.RescaledMedianFocal(cams, a);
  }

  /** Extraction at the default options of two 2400x1000 frames works at scale 1/2. */
  lemma ExampleExtraction(f1: Image, f2: Image, cv: OpenCv, sqrt: real -> real)
    requires f1.width == f2.width == 2400 && f1.height == f2.height == 1000
    requires sqrt(0.25) == 0.5 && sqrt(0.1 * 1000000.0 / 2400000.0) > 0.0
    requires "sift" in cv.finders
    ensures var e := Extract(SettingsOf(Defaults, cv.finders), [Some(f1), Some(f2)], sqrt);
      && e.Ok? && e.value.workScale == 0.5
      && e.value.fullImgSizes == [ImgSize(2400, 1000), ImgSize(2400, 1000)]
  {
    var st := SettingsOf(Defaults, cv.finders);
    assert Area(f1) == 2400000;
    assert FirstScales(st, f1, sqrt).Ok? && FirstScales(st, f1, sqrt).value.work == 0.5;
  }

  /**
   * A stitcher built with default options from two readable 2400x1000 frames
   * whose adjusted cameras both have focal length 100: the work scale is
   * `sqrt(0.6 * 1e6 / 2400000) = 1/2` and the warped image scale is 100.
   */
  lemma ExampleCalibration(f1: Image, f2: Image, c1: CameraParams, c2: CameraParams, cv: OpenCv, sqrt: real -> real)
    requires f1.width == f2.width == 2400 && f1.height == f2.height == 1000
    requires sqrt(0.25) == 0.5 && sqrt(0.1 * 1000000.0 / 2400000.0) > 0.0
    requires c1.focal == 100.0 && c2.focal == 100.0
    requires "sift" in cv.finders && cv.estimated.Some? && cv.adjusted == Some([c1, c2]) && |cv.waveCorrected| >= 2
    ensures Calibrate(Defaults, [Some(f1), Some(f2)], cv, sqrt).Ok?
    ensures var c := Calibrate(Defaults, [Some(f1), Some(f2)], cv, sqrt).value;
      && c.workScale == 0.5 && c.prepared.warpedImageScale == 100.0
      && |c.cameras| == 2 && c.cameras[0].focal == 100.0
      && c.fullImgSizes == [ImgSize(2400, 1000), ImgSize(2400, 1000)]
  {
    ExampleExtraction(f1, f2, cv, sqrt);
    var cams := Adjust(Defaults, [Some(f1), Some(f2)], cv, sqrt).value.cameras;
    assert Focals(cams) == [100.0, 100.0];
    Median.MedianOfEqualPair(100.0);
  }

  /**
   * A concrete case from a constructed stitcher: two 2400x1000 frames at the
   * default options, so a work scale of 1/2 and cameras of focal length 100.
   * The first `stitch_frames` call leaves focal 200, and the second call leaves
   * focal 400 instead of 200, with a warped image scale of 400.
   */
  lemma CompoundingExample(f1: Image, f2: Image, c1: CameraParams, c2: CameraParams, cv: OpenCv, sqrt: real -> real,
                           roiOf: seq<RoiRequest> -> Rect)
    requires f1.width == f2.width == 2400 && f1.height == f2.height == 1000
    requires sqrt(0.25) == 0.5 && sqrt(0.1 * 1000000.0 / 2400000.0) > 0.0
    requires c1.focal == 100.0 && c2.focal == 100.0
    requires "sift" in cv.finders && cv.estimated.Some? && cv.adjusted == Some([c1, c2]) && |cv.waveCorrected| >= 2
    ensures Calibrate(Defaults, [Some(f1), Some(f2)], cv, sqrt).Ok?
    ensures var c := Calibrate(Defaults, [Some(f1), Some(f2)], cv, sqrt).value;
            var out1 := Stitch(Defaults, c.workScale, c.fullImgSizes, c.cameras, c.prepared.warpedImageScale,
                               [f1, f2], sqrt, roiOf);
            var out2 := Stitch(Defaults, c.workScale, c.fullImgSizes, out1.cameras, out1.warpedImageScale,
                               [f1, f2], sqrt, roiOf);
      && out1.cameras[0].focal == 200.0
      && out2.cameras[0].focal == 400.0
      && out2.warpedImageScale == 400.0
  {
    ExampleCalibration(f1, f2, c1, c2, cv, sqrt);
    var c := Calibrate(Defaults, [Some(f1), Some(f2)], cv, sqrt).value;
    assert ComposeScale(Defaults, f1, sqrt) == Ok(1.0);
    StitchTwiceCompounds(Defaults, c.workScale, c.fullImgSizes, c.cameras, c.prepared.warpedImageScale, [f1, f2],
                         sqrt, roiOf);
  }

  /** A fresh object's first corrected call is exactly the call as written. */
  lemma StitchOnceFirstCall(o: Options, workScale: real, sizes: seq<ImgSize>, cams: seq<CameraParams>, wis: real,
                            cs0: real, frames: seq<Image>, sqrt: real -> real, roiOf: seq<RoiRequest> -> Rect)
    requires workScale != 0.0
    ensures StitchOnce(o, workScale, sizes, cams, wis, false, cs0, frames, sqrt, roiOf).outcome
            == Stitch(o, workScale, sizes, cams, wis, frames, sqrt, roiOf)
  {
  }

  /**
   * The corrected call is idempotent. Calling it again with the same frames
   * leaves the cameras, the warped image scale, the compose scale and the
   * returned result all as the first call left them.
   */
  lemma StitchOnceIdempotent(o: Options, workScale: real, sizes: seq<ImgSize>, cams: seq<CameraParams>, wis: real,
                             isSet: bool, cs0: real, frames: seq<Image>, sqrt: real -> real, roiOf: seq<RoiRequest> -> Rect)
    requires workScale != 0.0
    ensures var s1 := StitchOnce(o, workScale, sizes, cams, wis, isSet, cs0, frames, sqrt, roiOf);
            var s2 := StitchOnce(o, workScale, sizes, s1.outcome.cameras, s1.outcome.warpedImageScale,
                                 s1.isComposeScaleSet, s1.composeScale, frames, sqrt, roiOf);
      s2 == s1
  {
  }

  /** Once the compose scale is set, corrected calls never change the cameras or the warped image scale. */
  lemma StitchOnceKeepsCameras(o: Options, workScale: real, sizes: seq<ImgSize>, cams: seq<CameraParams>, wis: real,
                               cs0: real, frames: seq<Image>, sqrt: real -> real, roiOf: seq<RoiRequest> -> Rect)
    requires workScale != 0.0
    ensures var s := StitchOnce(o, workScale, sizes, cams, wis, true, cs0, frames, sqrt, roiOf);
      && s.outcome.cameras == cams
      && s.outcome.warpedImageScale == wis
      && s.isComposeScaleSet && s.composeScale == cs0
  {
  }

  // ------------------------------------------------------------------ class

  class FrameStitcher {
    const opts: Options
    var isComposeScaleSet: bool
    var isWorkScaleSet: bool
    var isSeamScaleSet: bool
    var composeScale: real
    var features: seq<ScaledImage>
    var images: seq<ScaledImage>
    var fullImgSizes: seq<ImgSize>
    var seamWorkAspect: real
    var workScale: real
    var matcher: Matcher
    var indices: seq<nat>
    var numImages: nat
    var cameras: seq<CameraParams>
    var refineMask: Matrix3
    var warpedImageScale: real
    var warper: Warper
    var seamWarps: seq<SeamWarp>
    var compensator: Compensator
    /** Where construction stopped, if it did: the source exits or raises there. */
    var failure: Option<Failure>

    /** A successfully constructed stitcher. */
    predicate Valid()
      reads this
    {
      && failure.None?
      && numImages == |fullImgSizes| == |images| && numImages >= 2
      && |cameras| >= numImages
      && workScale != 0.0
      && (!isComposeScaleSet ==> composeScale == 1.0)
    }

    /** The calibration the object holds. */
    function State(): Calibrated
      reads this
    {
      Calibrated(features, images, fullImgSizes, seamWorkAspect, workScale, matcher, indices, cameras, refineMask,
                 Prepared(warpedImageScale, warper, seamWarps, compensator))
    }

    /** `__init__`: stores the options, then calibrates from the initial frames. */
    constructor (initialFrames: seq<Option<Image>>, o: Options, cv: OpenCv, sqrt: real -> real)
      ensures opts == o
      ensures failure.None? <==> Calibrate(o, initialFrames, cv, sqrt).Ok?
      ensures failure.Some? ==> failure.value == Calibrate(o, initialFrames, cv, sqrt).failure
      ensures failure.None? ==> Valid() && State() == Calibrate(o, initialFrames, cv, sqrt).value
      ensures !isComposeScaleSet && composeScale == 1.0
    {
      opts := o;
      isComposeScaleSet, composeScale := false, 1.0;
      var r := CalibrateFrames(o, initialFrames, cv, sqrt);
      if r.Err? {
        // `exit()` or an exception: the object is never used
        isWorkScaleSet, isSeamScaleSet := false, false;
        features, images, fullImgSizes := [], [], [];
        seamWorkAspect, workScale := 1.0, 1.0;
        matcher := SettingsOf(o, cv.finders).matcher;
        indices, numImages, cameras, refineMask := [], 0, [], Zeros3;
        warpedImageScale, warper, seamWarps := 0.0, Warper(o.warpType, 0.0), [];
        compensator := DefaultCompensator(NoCompensation);
        failure := Some(r.failure);
      } else {
        var c := r.value;
        isWorkScaleSet, isSeamScaleSet := true, true;
        features, images, fullImgSizes := c.features, c.images, c.fullImgSizes;
        seamWorkAspect, workScale, matcher := c.seamWorkAspect, c.workScale, c.matcher;
        indices, numImages, cameras, refineMask := c.indices, |c.fullImgSizes|, c.cameras, c.refineMask;
        warpedImageScale, warper, seamWarps := c.prepared.warpedImageScale, c.prepared.warper, c.prepared.seamWarps;
        compensator := c.prepared.compensator;
        failure := None;
      }
    }

    /**
     * `stitch_frames` as written. Its `is_compose_scale_set` is a local, so
     * the first frame of every call computes the compose scale and rescales
     * the stored cameras and warped image scale again. The first-frame branch
     * is taken before `ComposeFrames` runs the per-frame loop. `roiOf` stands
     * for `cv.detail.resultRoi` over the rectangles `warpRoi` returns. The
     * cameras are updated in place, so a call that raises part way keeps the
     * rescales it already made.
     */
    method StitchFrames(frames: seq<Image>, sqrt: real -> real, roiOf: seq<RoiRequest> -> Rect) returns (r: Result<Stitched>)
      requires Valid()
      modifies this`cameras, this`warpedImageScale
      ensures Valid()
      ensures var out := Stitch(opts, workScale, fullImgSizes, old(cameras), old(warpedImageScale), frames, sqrt, roiOf);
        cameras == out.cameras && warpedImageScale == out.warpedImageScale && r == out.result
    {
      if frames == [] {
        // the loop does not run: `blender` stays None
        return if opts.timelapse then Ok(NoOutput) else Err(BlenderIsNone);
      }
      var composeScale := 1.0;
      if opts.composeMegapix > 0.0 {
        var s := MegapixScale(opts.composeMegapix, frames[0], sqrt);
        if s.Err? {
          return Err(s.failure);
        }
        composeScale := s.value;
      }
      var out := ComposeFrames(opts, fullImgSizes, cameras, warpedImageScale, composeScale, composeScale / workScale,
                               true, frames, sqrt, roiOf);
      cameras, warpedImageScale := out.cameras, out.warpedImageScale;
      return out.result;
    }

    /**
     * The corrected `stitch_frames`. The compose scale is kept in the object's
     * own `is_compose_scale_set` and `compose_scale` fields, so only the first
     * call that reaches a frame rescales. Every call computes the warper and
     * the ROIs afresh.
     */
    method StitchFramesOnce(frames: seq<Image>, sqrt: real -> real, roiOf: seq<RoiRequest> -> Rect) returns (r: Result<Stitched>)
      requires Valid()
      modifies this`cameras, this`warpedImageScale, this`isComposeScaleSet, this`composeScale
      ensures Valid()
      ensures var out := StitchOnce(opts, workScale, fullImgSizes, old(cameras), old(warpedImageScale),
                                    old(isComposeScaleSet), old(composeScale), frames, sqrt, roiOf);
        && cameras == out.outcome.cameras && warpedImageScale == out.outcome.warpedImageScale
        && isComposeScaleSet == out.isComposeScaleSet && composeScale == out.composeScale
        && r == out.outcome.result
    {
      if frames == [] {
        return if opts.timelapse then Ok(NoOutput) else Err(BlenderIsNone);
      }
      var out;
      if isComposeScaleSet {
        out := ComposeFrames(opts, fullImgSizes, cameras, warpedImageScale, composeScale, 1.0, false, frames, sqrt, roiOf);
      } else {
        var cs := 1.0;
        if opts.composeMegapix > 0.0 {
          var s := MegapixScale(opts.composeMegapix, frames[0], sqrt);
          if s.Err? {
            return Err(s.failure);
          }
          cs := s.value;
        }
        isComposeScaleSet, composeScale := true, cs;
        out := ComposeFrames(opts, fullImgSizes, cameras, warpedImageScale, cs, cs / workScale, true, frames, sqrt, roiOf);
      }
      cameras, warpedImageScale := out.cameras, out.warpedImageScale;
      return out.result;
    }
  }

  /**
   * The rest of `stitch_frames` once the compose scale `cs` is known. When
   * `rescale` holds, the warped image scale is multiplied by `a` and the
   * first-frame loop rescales the cameras. Then every frame is resized,
   * warped and fed to the blender, which is created on the first frame unless
   * in time-lapse mode; feeding a missing blender fails.
   */
  method ComposeFrames(o: Options, sizes: seq<ImgSize>, cams: seq<CameraParams>, wis: real, cs: real, a: real,
                       rescale: bool, frames: seq<Image>, sqrt: real -> real, roiOf: seq<RoiRequest> -> Rect)
    returns (out: Outcome)
    requires frames != []
    ensures out == Compose(o, sizes, cams, wis, cs, a, rescale, frames, sqrt, roiOf)
  {
    var wis' := if rescale then wis * a else wis;
    var warper := Warper(o.warpType, wis');
    var cams', rois, ok := RescaleAndMeasure(cams, sizes, |frames|, a, cs, rescale);
    if !ok {
      return Outcome(cams', wis', Err(IndexError));
    }
    var fed: seq<FrameWarp> := [];
    var blender: Option<Blender> := None;
    var idx := 0;
    while idx < |frames|
      invariant 0 <= idx <= |frames|
      invariant idx == 0 ==> blender.None?
      invariant idx > 0 ==> !o.timelapse && blender == Some(BlenderFor(o, roiOf(rois), sqrt))
      invariant |fed| == idx
      invariant forall k :: 0 <= k < idx ==> fed[k] == FrameWarp(ComposeImage(frames[k], cs), K(cams'[k]), cams'[k].R)
    {
      fed := fed + [FrameWarp(ComposeImage(frames[idx], cs), K(cams'[idx]), cams'[idx].R)];
      if blender.None? && !o.timelapse {
        blender := Some(BlenderFor(o, roiOf(rois), sqrt));
      }
      if blender.None? {
        return Outcome(cams', wis', Err(BlenderIsNone));   // `blender.feed` on None
      }
      idx := idx + 1;
    }
    assert fed == Feeds(frames, cams', cs);
    return Outcome(cams', wis', Ok(Blended(Panorama(warper, rois, blender.value, fed))));
  }

  /**
   * The calibration `__init__` runs: the steps up to wave correction, then
   * `prepare_warping_and_blending` on the frames' seam images and the
   * corrected cameras.
   */
  method CalibrateFrames(o: Options, frames: seq<Option<Image>>, cv: OpenCv, sqrt: real -> real) returns (r: Result<Calibrated>)
    ensures r == Calibrate(o, frames, cv, sqrt)
  {
    var adj := AdjustCameras(o, frames, cv, sqrt);
    if adj.Err? {
      return Err(adj.failure);
    }
    var e := adj.value.extraction;
    var p := PrepareWarpingAndBlending(o, e.seamImages, adj.value.cameras, e.seamWorkAspect);
    if p.Err? {
      return Err(p.failure);
    }
    return Ok(Calibrated(e.workImages, e.seamImages, e.fullImgSizes, e.seamWorkAspect, e.workScale,
                         e.matcher, cv.biggestComponent, adj.value.cameras, adj.value.refineMask, p.value));
  }

  /**
   * `prepare_warping_and_blending`: the median focal length, the seam
   * warper, one warp per image with its camera's K scaled by the seam/work
   * aspect, then the compensator.
   */
  method PrepareWarpingAndBlending(o: Options, images: seq<ScaledImage>, cameras: seq<CameraParams>, swa: real)
    returns (r: Result<Prepared>)
    ensures r == Prepare(o, images, cameras, swa)
  {
    var scale := WarpedImageScale(cameras);
    if scale.Err? {
      return Err(scale.failure);
    }
    var warpedImageScale := scale.value;
    var warper := Warper(o.warpType, Mul(warpedImageScale, swa));
    var warps := WarpSeams(images, cameras, swa);
    if warps.Err? {
      return Err(warps.failure);
    }
    var c := GetCompensator(o.exposComp, o.exposCompNrFeeds, o.exposCompBlockSize);
    if c.Err? {
      return Err(c.failure);
    }
    return Ok(Prepared(warpedImageScale, warper, warps.value, c.value));
  }

  /**
   * The calibration steps of `__init__` before `prepare_warping_and_blending`:
   * feature extraction; the frame count check; the estimator's answer; the
   * refinement mask; the adjuster's answer; wave correction.
   */
  method AdjustCameras(o: Options, frames: seq<Option<Image>>, cv: OpenCv, sqrt: real -> real) returns (r: Result<Adjusted>)
    ensures r == Adjust(o, frames, cv, sqrt)
  {
    var ex := ExtractFeatures(SettingsOf(o, cv.finders), frames, sqrt);
    if ex.Err? {
      return Err(ex.failure);
    }
    var e := ex.value;
    if |e.fullImgSizes| < 2 {
      return Err(NeedMoreImages);
    }
    if cv.estimated.None? {
      return Err(EstimationFailed);
    }
    var mask := RefineMask(o.baRefineMask);
    if mask.Err? {
      return Err(mask.failure);
    }
    if cv.adjusted.None? {
      return Err(AdjustingFailed);
    }
    var cams := cv.adjusted.value;
    if o.waveCorrect.Some? {
      var corrected := CorrectWaves(o.waveCorrect.value, cams, cv.waveCorrected);
      if corrected.Err? {
        return Err(corrected.failure);
      }
      cams := corrected.value;
    }
    return Ok(Adjusted(e, mask.value, cams));
  }

  /** The wave correction loop: camera `i` takes rotation `i`, until the rotations run out. */
  method CorrectWaves(kind: WaveCorrectKind, cams: seq<CameraParams>, rmats: seq<Rotation>) returns (r: Result<seq<CameraParams>>)
    ensures r == WaveCorrected(Some(kind), cams, rmats)
  {
    var out := cams;
    var idx := 0;
    while idx < |out|
      invariant 0 <= idx <= |out| == |cams|
      invariant idx <= |rmats|
      invariant forall k :: 0 <= k < idx ==> out[k] == cams[k].(R := rmats[k])
      invariant forall k :: idx <= k < |out| ==> out[k] == cams[k]
    {
      if idx >= |rmats| {
        return Err(IndexError);   // `rmats[idx]` out of range
      }
      out := out[idx := out[idx].(R := rmats[idx])];
      idx := idx + 1;
    }
    assert out == WaveCorrected(Some(kind), cams, rmats).value;
    return Ok(out);
  }

  /**
   * The seam-scale warp loop: image `idx` is warped with camera `idx`, whose
   * K has its focal and principal point entries scaled by the seam/work
   * aspect. Running out of cameras raises IndexError.
   */
  method WarpSeams(images: seq<ScaledImage>, cameras: seq<CameraParams>, swa: real) returns (r: Result<seq<SeamWarp>>)
    ensures r.Ok? <==> |images| <= |cameras|
    ensures r.Ok? ==> r.value == SeamWarps(images, cameras, swa)
    ensures r.Err? ==> r.failure == IndexError
  {
    var seamWarps := [];
    var idx := 0;
    while idx < |images|
      invariant 0 <= idx <= |images| && idx <= |cameras|
      invariant |seamWarps| == idx
      invariant forall k :: 0 <= k < idx ==> seamWarps[k] == SeamWarp(images[k], ScaleK(K(cameras[k]), swa), cameras[k].R)
    {
      if idx >= |cameras| {
        return Err(IndexError);
      }
      var k := ScaleK(K(cameras[idx]), swa);
      seamWarps := seamWarps + [SeamWarp(images[idx], k, cameras[idx].R)];
      idx := idx + 1;
    }
    assert seamWarps == SeamWarps(images, cameras, swa);
    return Ok(seamWarps);
  }

  /**
   * The `for i in range(len(frames))` loop run on the first frame. When
   * `rescale` holds, it multiplies each camera's focal length and principal
   * point by `a`. Then it asks `warpRoi` for that camera's frame at the
   * compose scale. The loop stops with IndexError at the first index with no
   * camera or no size; the cameras it already rescaled stay rescaled.
   */
  method RescaleAndMeasure(cams: seq<CameraParams>, sizes: seq<ImgSize>, n: nat, a: real, cs: real, rescale: bool)
    returns (cams': seq<CameraParams>, rois: seq<RoiRequest>, ok: bool)
    ensures ok <==> n <= |cams| && n <= |sizes|
    ensures rescale ==> cams' == RescalePrefix(cams, RescaleCount(n, |cams|, |sizes|), a)
    ensures !rescale ==> cams' == cams
    ensures ok ==> rois == Rois(sizes, cams', cs, n)
  {
    cams' := cams;
    rois := [];
    var i := 0;
    while i < n
      invariant 0 <= i <= n
      invariant i <= |cams| && i <= |sizes|
      invariant cams' == (if rescale then RescalePrefix(cams, i, a) else cams)
      invariant |rois| == i
      invariant forall k :: 0 <= k < i ==> rois[k] == RoiRequest(sizes[k], cs, K(cams'[k]), cams'[k].R)
    {
      if i >= |cams'| {
        assert RescaleCount(n, |cams|, |sizes|) == i;
        return cams', rois, false;
      }
      if rescale {
        cams' := cams'[i := Rescaled(cams'[i], a)];
      }
      if i >= |sizes| {
        assert RescaleCount(n, |cams|, |sizes|) == i + 1;
        assert rescale ==> cams' == RescalePrefix(cams, i + 1, a);
        return cams', rois, false;
      }
      rois := rois + [RoiRequest(sizes[i], cs, K(cams'[i]), cams'[i].R)];
      i := i + 1;
    }
    ok := true;
    assert rois == Rois(sizes, cams', cs, n);
  }
}
