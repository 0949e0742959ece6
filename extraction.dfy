/**
 * Feature extraction as both stitchers do it: every frame is measured, resized
 * to the work scale for feature detection and to the seam scale for the seam
 * images. Both scales are computed from the FIRST frame only, guarded by the
 * "scale set" flags, and capped at 1. Feature detection and matching are
 * OpenCV calls: the model records which image each detector call receives and
 * which matcher is used, not the features themselves.
 */
module Extraction {
  import opened Common
  import opened Choices

  /** A frame as handed to an OpenCV call: unchanged, or `cv.resize`d by a factor. */
  datatype ScaledImage = Original(source: Image) | Resized(source: Image, scale: real)

  /**
   * The fixed inputs of one extraction: megapixel targets, detector name, the
   * detector names the OpenCV build offers (the keys of `FEATURES_FIND_CHOICES`,
   * filled at import time by whichever constructors exist), and the matcher.
   */
  datatype Settings = Settings(workMegapix: real, seamMegapix: real, finder: string, finders: set<string>, matcher: Matcher)

  /** What `feature_extractor` returns (features and matches are opaque). */
  datatype Extraction = Extraction(
    finder: string,                 // the detector every frame is given to
    workImages: seq<ScaledImage>,   // the image features were computed on, per frame
    seamImages: seq<ScaledImage>,   // `images`: every frame resized to the seam scale
    fullImgSizes: seq<ImgSize>,     // `(width, height)` of every frame
    seamScale: real,
    seamWorkAspect: real,
    workScale: real,
    matcher: Matcher)               // the matcher `apply2` is called on

  /** `shape[0] * shape[1]` of a frame. */
  function Area(img: Image): nat {
    img.width * img.height
  }

  /**
   * `min(1.0, sqrt(megapix * 1e6 / area))`. Python raises ZeroDivisionError
   * when the frame has no pixels.
   */
  function MegapixScale(megapix: real, img: Image, sqrt: real -> real): (r: Result<real>)
    ensures r.Err? <==> Area(img) == 0
    ensures r.Err? ==> r.failure == ZeroDivision
    ensures r.Ok? ==> r.value <= 1.0
  {
    if Area(img) == 0 then Err(ZeroDivision)
    else Ok(CapAtOne(sqrt(megapix * 1000000.0 / (Area(img) as real))))
  }

  /** The scales fixed by the first frame. */
  datatype Scales = Scales(work: real, seam: real, seamWorkAspect: real)

  /**
   * The work scale (1 when `work_megapix < 0`), the seam scale (1 when
   * `seam_megapix <= 0`) and `seam_scale / work_scale`, from one frame, in the
   * order the first frame meets them: the work scale, the resize at the work
   * scale, the seam scale, the resize at the seam scale. `cv.resize` refuses a
   * scale factor that is not positive, so `work_megapix == 0` stops at the first
   * resize.
   */
  function FirstScales(s: Settings, first: Image, sqrt: real -> real): (r: Result<Scales>)
    ensures r.Err? ==> r.failure == if Area(first) == 0 then ZeroDivision else ResizeFailed
    ensures r.Ok? ==> 0.0 < r.value.work <= 1.0 && 0.0 < r.value.seam <= 1.0
    ensures r.Ok? ==> r.value.seamWorkAspect * r.value.work == r.value.seam
    ensures r.Ok? && s.workMegapix < 0.0 ==> r.value.work == 1.0
    ensures r.Ok? && s.seamMegapix <= 0.0 ==> r.value.seam == 1.0
    ensures s.workMegapix < 0.0 && s.seamMegapix <= 0.0 ==> r == Ok(Scales(1.0, 1.0, 1.0))
    ensures s.workMegapix == 0.0 && Area(first) > 0 && sqrt(0.0) == 0.0 ==> r == Err(ResizeFailed)
  {
    var work := if s.workMegapix < 0.0 then Ok(1.0) else MegapixScale(s.workMegapix, first, sqrt);
    if work.Err? then Err(work.failure)
    else if work.value <= 0.0 then Err(ResizeFailed)
    else
      var seam := if s.seamMegapix > 0.0 then MegapixScale(s.seamMegapix, first, sqrt) else Ok(1.0);
      if seam.Err? then Err(seam.failure)
      else if seam.value <= 0.0 then Err(ResizeFailed)
      else Ok(Scales(work.value, seam.value, seam.value / work.value))
  }

  /** The image features are computed on: the frame itself, or the frame at the work scale. */
  function WorkImage(s: Settings, sc: Scales, img: Image): ScaledImage {
    if s.workMegapix < 0.0 then Original(img) else Resized(img, sc.work)
  }

  /**
   * The whole extraction, stated frame by frame: an unknown detector name
   * raises KeyError before any frame is looked at, a missing first frame stops
   * with "Cannot read images", a first frame of area zero stops with
   * ZeroDivisionError and a scale that is not positive stops at `cv.resize`,
   * any later missing frame stops with "Cannot read
   * images", and an empty frame list leaves `work_scale` unbound.
   */
  function Extract(s: Settings, frames: seq<Option<Image>>, sqrt: real -> real): (r: Result<Extraction>)
    ensures r.Ok? <==>
              && s.finder in s.finders
              && frames != []
              && (forall k :: 0 <= k < |frames| ==> frames[k].Some?)
              && FirstScales(s, frames[0].value, sqrt).Ok?
    ensures r.Ok? ==> |r.value.workImages| == |r.value.seamImages| == |r.value.fullImgSizes| == |frames|
    ensures r.Ok? ==> r.value.workScale > 0.0
  {
    if s.finder !in s.finders then Err(KeyError)
    else if frames == [] then Err(UnboundLocal)
    else if frames[0].None? then Err(CannotReadImages)
    else
      match FirstScales(s, frames[0].value, sqrt)
      case Err(f) => Err(f)
      case Ok(sc) =>
        if exists k :: 0 <= k < |frames| && frames[k].None? then Err(CannotReadImages)
        else
          Ok(Extraction(
            s.finder,
            seq(|frames|, k requires 0 <= k < |frames| => WorkImage(s, sc, frames[k].value)),
            seq(|frames|, k requires 0 <= k < |frames| => Resized(frames[k].value, sc.seam)),
            seq(|frames|, k requires 0 <= k < |frames| => SizeOf(frames[k].value)),
            sc.seam, sc.seamWorkAspect, sc.work, s.matcher))
  }

  /**
   * `feature_extractor`: one pass over the frames. The work scale is computed
   * while `is_work_scale_set` is false, the seam scale and the seam/work aspect
   * while `is_seam_scale_set` is false, so both come from the first frame.
   */
  method ExtractFeatures(s: Settings, frames: seq<Option<Image>>, sqrt: real -> real) returns (r: Result<Extraction>)
    ensures r == Extract(s, frames, sqrt)
  {
    if s.finder !in s.finders {
      return Err(KeyError);
    }
    var seamWorkAspect := 1.0;
    var sizes: seq<ImgSize> := [];
    var workImages: seq<ScaledImage> := [];
    var seamImages: seq<ScaledImage> := [];
    var isWorkScaleSet := false;
    var isSeamScaleSet := false;
    var workScale: Option<real> := None;   // unbound until the first frame assigns it
    var seamScale := 1.0;
    ghost var sc: Scales := Scales(1.0, 1.0, 1.0);
    var i := 0;
    while i < |frames|
      invariant 0 <= i <= |frames|
      invariant forall k :: 0 <= k < i ==> frames[k].Some?
      invariant i == 0 <==> !isSeamScaleSet
      invariant i == 0 ==> workScale.None? && !isWorkScaleSet
      invariant i > 0 ==> isWorkScaleSet && FirstScales(s, frames[0].value, sqrt) == Ok(sc)
      invariant i > 0 ==> workScale == Some(sc.work) && seamScale == sc.seam && seamWorkAspect == sc.seamWorkAspect
      invariant |sizes| == |workImages| == |seamImages| == i
      invariant forall k :: 0 <= k < i ==> sizes[k] == SizeOf(frames[k].value)
      invariant forall k :: 0 <= k < i ==> workImages[k] == WorkImage(s, sc, frames[k].value)
      invariant forall k :: 0 <= k < i ==> seamImages[k] == Resized(frames[k].value, sc.seam)
    {
      if frames[i].None? {
        return Err(CannotReadImages);
      }
      var fullImg := frames[i].value;
      sizes := sizes + [SizeOf(fullImg)];
      var img: ScaledImage;
      if s.workMegapix < 0.0 {
        img := Original(fullImg);
        workScale := Some(1.0);
        isWorkScaleSet := true;
      } else {
        if !isWorkScaleSet {
          var w := MegapixScale(s.workMegapix, fullImg, sqrt);
          if w.Err? {
            return Err(w.failure);
          }
          workScale := Some(w.value);
          isWorkScaleSet := true;
        }
        if workScale.value <= 0.0 {
          return Err(ResizeFailed);
        }
        img := Resized(fullImg, workScale.value);
      }
      if !isSeamScaleSet {
        if s.seamMegapix > 0.0 {
          var m := MegapixScale(s.seamMegapix, fullImg, sqrt);
          if m.Err? {
            return Err(m.failure);
          }
          seamScale := m.value;
        } else {
          seamScale := 1.0;
        }
        seamWorkAspect := seamScale / workScale.value;
        isSeamScaleSet := true;
        sc := Scales(workScale.value, seamScale, seamWorkAspect);
      }
      if seamScale <= 0.0 {
        return Err(ResizeFailed);
      }
      workImages := workImages + [img];
      seamImages := seamImages + [Resized(fullImg, seamScale)];
      i := i + 1;
    }
    if workScale.None? {
      return Err(UnboundLocal);
    }
    r := Ok(Extraction(s.finder, workImages, seamImages, sizes, seamScale, seamWorkAspect, workScale.value, s.matcher));
    assert workImages == seq(|frames|, k requires 0 <= k < |frames| => WorkImage(s, sc, frames[k].value));
    assert seamImages == seq(|frames|, k requires 0 <= k < |frames| => Resized(frames[k].value, sc.seam));
    assert sizes == seq(|frames|, k requires 0 <= k < |frames| => SizeOf(frames[k].value));
  }

  /** The scales are capped at 1 and the aspect is the seam scale over the work scale. */
  lemma ExtractScalesBounded(s: Settings, frames: seq<Option<Image>>, sqrt: real -> real)
    requires Extract(s, frames, sqrt).Ok?
    ensures var e := Extract(s, frames, sqrt).value;
      && e.workScale <= 1.0 && e.seamScale <= 1.0
      && e.seamWorkAspect * e.workScale == e.seamScale
      && (s.workMegapix < 0.0 ==> e.workScale == 1.0)
      && (s.seamMegapix <= 0.0 ==> e.seamScale == 1.0)
  {
  }

  /**
   * Only the first frame decides the scales: two frame lists with the same
   * first frame extract with the same work scale, seam scale and aspect.
   */
  lemma ScalesFromFirstFrameOnly(s: Settings, a: seq<Option<Image>>, b: seq<Option<Image>>, sqrt: real -> real)
    requires Extract(s, a, sqrt).Ok? && Extract(s, b, sqrt).Ok?
    requires a[0] == b[0]
    ensures Extract(s, a, sqrt).value.workScale == Extract(s, b, sqrt).value.workScale
    ensures Extract(s, a, sqrt).value.seamScale == Extract(s, b, sqrt).value.seamScale
    ensures Extract(s, a, sqrt).value.seamWorkAspect == Extract(s, b, sqrt).value.seamWorkAspect
  {
  }

  /**
   * Every frame is recorded with its own size and resized by the same two
   * scales, in input order.
   */
  lemma ExtractPerFrame(s: Settings, frames: seq<Option<Image>>, sqrt: real -> real, k: nat)
    requires Extract(s, frames, sqrt).Ok? && k < |frames|
    ensures var e := Extract(s, frames, sqrt).value;
      && e.fullImgSizes[k] == ImgSize(frames[k].value.width, frames[k].value.height)
      && e.seamImages[k] == Resized(frames[k].value, e.seamScale)
      && e.workImages[k].source == frames[k].value
      && (e.workImages[k].Resized? ==> e.workImages[k].scale == e.workScale)
  {
  }

  /** A frame that cannot be read always stops the extraction, wherever it is. */
  lemma MissingFrameFails(s: Settings, frames: seq<Option<Image>>, sqrt: real -> real, k: nat)
    requires k < |frames| && frames[k].None?
    ensures Extract(s, frames, sqrt).Err?
    ensures k == 0 && s.finder in s.finders ==> Extract(s, frames, sqrt).failure == CannotReadImages
  {
  }
}
