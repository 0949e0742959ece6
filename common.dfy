/**
 * Values shared by every part of the stitching model: the typed failures that
 * stand for the source's `exit()` calls and Python exceptions, a result type,
 * and the handful of image records the pipeline passes around.
 */
module Common {

  datatype Option<T> = None | Some(value: T)

  /** Why a step stopped. The source either calls `exit()` or raises. */
  datatype Failure =
    | CannotReadImages        // a frame is None: "Cannot read images", exit()
    | NeedMoreImages          // fewer than 2 images: "Need more images", exit()
    | EstimationFailed        // homography estimation returned false, exit()
    | AdjustingFailed         // bundle adjustment returned false, exit()
    | KeyError                // a key missing from a choice table
    | IndexError              // a list or string index out of range
    | ZeroDivision            // float division by an image area of zero
    | ResizeFailed            // `cv.resize` given a scale factor that is not positive
    | UnboundLocal            // a local read before any assignment
    | BlenderIsNone           // `blender` still None when fed or blended
    | TimelapseExit           // the prototype's timelapse branch, exit()

  datatype Result<T> = Ok(value: T) | Err(failure: Failure)

  /** A captured frame. Pixel content is opaque to the model. */
  datatype Image = Image(width: nat, height: nat, pixels: seq<int>)

  /** `(shape[1], shape[0])` of a frame, as `full_img_sizes` stores it. */
  datatype ImgSize = ImgSize(width: nat, height: nat)

  function SizeOf(img: Image): (s: ImgSize)
    ensures s.width == img.width && s.height == img.height
  {
    ImgSize(img.width, img.height)
  }

  /** The rectangle `(x, y, width, height)` returned by `resultRoi`. */
  datatype Rect = Rect(x: int, y: int, width: int, height: int)

  /**
   * The product `x * y`. Products that end up inside sequences and records are
   * written with this function, so that the solver compares them as terms.
   */
  function Mul(x: real, y: real): real { x * y }

  /** `min(1.0, x)`. */
  function CapAtOne(x: real): (r: real)
    ensures r <= 1.0
    ensures r == x || r == 1.0
    ensures x <= 1.0 ==> r == x
  {
    if x < 1.0 then x else 1.0
  }
}
