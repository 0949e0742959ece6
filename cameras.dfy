/**
 * OpenCV's camera parameters as the stitchers use them: a focal length, an
 * aspect ratio, a principal point and a rotation. The stitchers only ever
 * scale focal and principal point and overwrite the rotation; the rotation
 * itself is opaque here.
 */
module Cameras {
  import opened Common
  import Median

  /** A 3x3 rotation matrix; its entries are never inspected. */
  datatype Rotation = Rotation(entries: seq<seq<real>>)

  datatype CameraParams = CameraParams(focal: real, aspect: real, ppx: real, ppy: real, R: Rotation)

  /**
   * The intrinsic matrix `K()` of a camera: upper triangular with last row
   * (0, 0, 1), the focal length on the diagonal (times the aspect in the second
   * row) and the principal point in the last column.
   */
  function K(c: CameraParams): (k: seq<seq<real>>)
    ensures |k| == 3 && |k[0]| == 3 && |k[1]| == 3 && k[2] == [0.0, 0.0, 1.0]
    ensures k[0][0] == c.focal && k[1][1] == c.focal * c.aspect
    ensures k[0][1] == 0.0 && k[1][0] == 0.0
    ensures k[0][2] == c.ppx && k[1][2] == c.ppy
  {
    [[c.focal, 0.0, c.ppx], [0.0, Mul(c.focal, c.aspect), c.ppy], [0.0, 0.0, 1.0]]
  }

  /** `focal`, `ppx` and `ppy` each multiplied by `a`; aspect and rotation kept. */
  function Rescaled(c: CameraParams, a: real): (r: CameraParams)
    ensures r.focal == c.focal * a && r.ppx == c.ppx * a && r.ppy == c.ppy * a
    ensures r.aspect == c.aspect && r.R == c.R
  {
    CameraParams(Mul(c.focal, a), c.aspect, Mul(c.ppx, a), Mul(c.ppy, a), c.R)
  }

  /** Two rescales in a row are one rescale by the product: repeated rescaling compounds. */
  lemma RescaleTwice(c: CameraParams, a: real, b: real)
    ensures Rescaled(Rescaled(c, a), b) == Rescaled(c, Mul(a, b))
  {
    assert c.focal * a * b == c.focal * (a * b);
    assert c.ppx * a * b == c.ppx * (a * b);
    assert c.ppy * a * b == c.ppy * (a * b);
  }

  /** Rescaling by 1 changes nothing. */
  lemma RescaleByOne(c: CameraParams)
    ensures Rescaled(c, 1.0) == c
  {
  }

  /**
   * The intrinsic matrix with the entries (0,0), (0,2), (1,1) and (1,2)
   * multiplied by `swa`, as the seam-scale warps prepare it.
   */
  function ScaleK(k: seq<seq<real>>, swa: real): (r: seq<seq<real>>)
    requires |k| == 3 && |k[0]| == 3 && |k[1]| == 3
    ensures |r| == 3 && r[2] == k[2]
  {
    [[Mul(k[0][0], swa), k[0][1], Mul(k[0][2], swa)],
     [k[1][0], Mul(k[1][1], swa), Mul(k[1][2], swa)],
     k[2]]
  }

  /** Scaling those four entries of `K` is the same as taking `K` of the camera rescaled by `swa`. */
  lemma ScaleKIsRescaledK(c: CameraParams, swa: real)
    ensures ScaleK(K(c), swa) == K(Rescaled(c, swa))
  {
    assert c.focal * c.aspect * swa == c.focal * swa * c.aspect;
    assert Mul(Mul(c.focal, c.aspect), swa) == Mul(Mul(c.focal, swa), c.aspect);
    var r := Rescaled(c, swa);
    assert ScaleK(K(c), swa)[0] == K(r)[0];
    assert ScaleK(K(c), swa)[1] == K(r)[1];
  }

  /** The focal lengths, camera by camera. */
  function Focals(cams: seq<CameraParams>): (fs: seq<real>)
    ensures |fs| == |cams| && forall i :: 0 <= i < |cams| ==> fs[i] == cams[i].focal
  {
    seq(|cams|, i requires 0 <= i < |cams| => cams[i].focal)
  }

  /** The rotations, camera by camera. */
  function Rotations(cams: seq<CameraParams>): (rs: seq<Rotation>)
    ensures |rs| == |cams| && forall i :: 0 <= i < |cams| ==> rs[i] == cams[i].R
  {
    seq(|cams|, i requires 0 <= i < |cams| => cams[i].R)
  }

  /** The first `n` cameras rescaled by `a`, the others as they were. */
  function RescalePrefix(cams: seq<CameraParams>, n: nat, a: real): (r: seq<CameraParams>)
    requires n <= |cams|
    ensures |r| == |cams|
    ensures forall i :: 0 <= i < n ==> r[i] == Rescaled(cams[i], a)
    ensures forall i :: n <= i < |cams| ==> r[i] == cams[i]
  {
    seq(|cams|, i requires 0 <= i < |cams| => if i < n then Rescaled(cams[i], a) else cams[i])
  }

  /** A rescale never touches a rotation. */
  lemma RescalePrefixKeepsRotations(cams: seq<CameraParams>, n: nat, a: real)
    requires n <= |cams|
    ensures Rotations(RescalePrefix(cams, n, a)) == Rotations(cams)
  {
  }

  /** Rescaling all cameras twice is rescaling them once by the square of the factor. */
  lemma RescalePrefixTwice(cams: seq<CameraParams>, a: real)
    ensures RescalePrefix(RescalePrefix(cams, |cams|, a), |cams|, a) == RescalePrefix(cams, |cams|, Mul(a, a))
  {
    forall i | 0 <= i < |cams|
      ensures RescalePrefix(RescalePrefix(cams, |cams|, a), |cams|, a)[i] == RescalePrefix(cams, |cams|, Mul(a, a))[i]
    {
      RescaleTwice(cams[i], a, a);
    }
  }

  /** `focals = [cam.focal for cam in cameras]`, sorted, then the middle-element rule. */
  function WarpedImageScale(cams: seq<CameraParams>): (r: Result<real>)
    ensures r.Err? <==> cams == []
  {
    Median.MedianFocal(Focals(cams))
  }
}
