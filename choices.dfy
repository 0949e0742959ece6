/**
 * The strategy choices both stitchers make from their option values: which
 * feature matcher to build and with what confidence, which exposure
 * compensator, which blender, and the bundle-adjustment refinement mask.
 * All of them are pure decisions over closed enumerations; the OpenCV objects
 * they construct are represented by the constructor arguments they receive.
 */
module Choices {
  import opened Common

  // ---------------------------------------------------------------- matcher

  /** The three OpenCV pairwise matchers and the arguments they are built with. */
  datatype Matcher =
    | AffineBestOf2Nearest(fullAffine: bool, tryUseGpu: bool, matchConf: real)
    | BestOf2Nearest(tryUseGpu: bool, matchConf: real)
    | BestOf2NearestRange(rangeWidth: int, tryUseGpu: bool, matchConf: real)

  /**
   * `get_matcher`: an absent confidence defaults to 0.3 for ORB features and
   * 0.65 for every other detector; `"affine"` selects the affine matcher, and
   * otherwise a range width of -1 selects the plain matcher and any other width
   * the range matcher.
   */
  function GetMatcher(matcherType: string, matchConf: Option<real>, features: string, rangeWidth: int): (m: Matcher)
    ensures matchConf.Some? ==> m.matchConf == matchConf.value
    ensures matchConf.None? && features == "orb" ==> m.matchConf == 0.3
    ensures matchConf.None? && features != "orb" ==> m.matchConf == 0.65
    ensures m.AffineBestOf2Nearest? <==> matcherType == "affine"
    ensures m.BestOf2Nearest? <==> matcherType != "affine" && rangeWidth == -1
    ensures m.BestOf2NearestRange? <==> matcherType != "affine" && rangeWidth != -1
    ensures m.BestOf2NearestRange? ==> m.rangeWidth == rangeWidth
    ensures m.AffineBestOf2Nearest? ==> !m.fullAffine
    ensures m.tryUseGpu
  {
    var tryCuda := true;
    var conf :=
      if matchConf.None? then
        (if features == "orb" then 0.3 else 0.65)
      else matchConf.value;
    if matcherType == "affine" then AffineBestOf2Nearest(false, tryCuda, conf)
    else if rangeWidth == -1 then BestOf2Nearest(tryCuda, conf)
    else BestOf2NearestRange(rangeWidth, tryCuda, conf)
  }

  /** The range width plays no part once the affine matcher is chosen. */
  lemma AffineIgnoresRangeWidth(matchConf: Option<real>, features: string, w1: int, w2: int)
    ensures GetMatcher("affine", matchConf, features, w1) == GetMatcher("affine", matchConf, features, w2)
  {
  }

  /** The confidence depends only on the given value and the detector, never on the matcher chosen. */
  lemma ConfidenceIndependentOfMatcher(t1: string, t2: string, matchConf: Option<real>, features: string, w1: int, w2: int)
    ensures GetMatcher(t1, matchConf, features, w1).matchConf == GetMatcher(t2, matchConf, features, w2).matchConf
  {
  }

  // ------------------------------------------------------------ compensator

  /** The exposure compensator kinds of the `EXPOS_COMP_CHOICES` table. */
  datatype ExposCompType = GainBlocks | Gain | Channels | ChannelsBlocks | NoCompensation

  /** The `EXPOS_COMP_CHOICES` table: option key to compensator kind. */
  const ExposCompChoices: map<string, ExposCompType> :=
    map["gain_blocks" := GainBlocks, "gain" := Gain, "channel" := Channels,
        "channel_blocks" := ChannelsBlocks, "no" := NoCompensation]

  /** The key under which the table lists a kind. */
  function ExposCompKey(t: ExposCompType): string {
    match t
    case GainBlocks => "gain_blocks"
    case Gain => "gain"
    case Channels => "channel"
    case ChannelsBlocks => "channel_blocks"
    case NoCompensation => "no"
  }

  /** `EXPOS_COMP_CHOICES[key]`, which raises KeyError for an unknown key. */
  function LookupExposComp(key: string): (r: Result<ExposCompType>)
    ensures r.Ok? <==> key in {"gain_blocks", "gain", "channel", "channel_blocks", "no"}
    ensures r.Err? ==> r.failure == KeyError
  {
    if key in ExposCompChoices then Ok(ExposCompChoices[key]) else Err(KeyError)
  }

  /** Every kind is listed, under its own key, and no kind under two keys. */
  lemma ExposCompTableRoundTrip(t: ExposCompType, key: string)
    ensures LookupExposComp(ExposCompKey(t)) == Ok(t)
    ensures LookupExposComp(key).Ok? ==> ExposCompKey(LookupExposComp(key).value) == key
  {
  }

  /** The compensator objects `get_compensator` builds, with their constructor arguments. */
  datatype Compensator =
    | ChannelsCompensator(nrFeeds: int)
    | BlocksChannelsCompensator(blockWidth: int, blockHeight: int, nrFeeds: int)
    | DefaultCompensator(kind: ExposCompType)

  /**
   * `get_compensator`: the channel kind gets a channels compensator with the
   * feed count, the channel-blocks kind a blocks-channels compensator with a
   * square block, every other kind OpenCV's default compensator of that kind.
   */
  function GetCompensator(exposComp: string, nrFeeds: int, blockSize: int): (r: Result<Compensator>)
    ensures r.Err? <==> exposComp !in ExposCompChoices
    ensures r.Err? ==> r.failure == KeyError
    ensures exposComp == "channel" ==> r == Ok(ChannelsCompensator(nrFeeds))
    ensures exposComp == "channel_blocks" ==> r == Ok(BlocksChannelsCompensator(blockSize, blockSize, nrFeeds))
    ensures r.Ok? && exposComp != "channel" && exposComp != "channel_blocks" ==>
              r.value == DefaultCompensator(ExposCompChoices[exposComp])
    ensures r.Ok? && r.value.DefaultCompensator? ==>
              r.value.kind != Channels && r.value.kind != ChannelsBlocks
  {
    match LookupExposComp(exposComp)
    case Err(f) => Err(f)
    case Ok(kind) =>
      if kind == Channels then Ok(ChannelsCompensator(nrFeeds))
      else if kind == ChannelsBlocks then Ok(BlocksChannelsCompensator(blockSize, blockSize, nrFeeds))
      else Ok(DefaultCompensator(kind))
  }

  // ---------------------------------------------------------------- blender

  /** The blenders: none, multi-band (with its blend width), feather (with its sharpness). */
  datatype Blender = NoBlender | MultiBand(blendWidth: real) | Feather(sharpness: real)

  /**
   * `sqrt(area) * blend_strength / 100`, given the square root of the result
   * area: a percentage of the square root.
   */
  function BlendWidth(sqrtArea: real, strength: real): (w: real)
    ensures 0.0 <= sqrtArea && 0.0 <= strength ==> 0.0 <= w
    ensures 0.0 <= sqrtArea && strength <= 100.0 ==> w <= sqrtArea
    ensures strength == 100.0 ==> w == sqrtArea
  {
    sqrtArea * strength / 100.0
  }

  /**
   * The blender choice: a blend width below 1 gives no blending whatever the
   * type; otherwise `"multiband"` and `"feather"` (sharpness `1 / width`) get
   * their blender and any other type keeps the no-blend blender created first.
   */
  function ChooseBlender(blendType: string, blendWidth: real): (b: Blender)
    ensures blendWidth < 1.0 ==> b == NoBlender
    ensures blendWidth >= 1.0 && blendType == "multiband" ==> b == MultiBand(blendWidth)
    ensures blendWidth >= 1.0 && blendType == "feather" ==> b == Feather(1.0 / blendWidth)
    ensures blendType != "multiband" && blendType != "feather" ==> b == NoBlender
    ensures b.Feather? ==> 0.0 < b.sharpness <= 1.0
    ensures b.MultiBand? ==> b.blendWidth >= 1.0
  {
    var initial := NoBlender;
    if blendWidth < 1.0 then NoBlender
    else if blendType == "multiband" then MultiBand(blendWidth)
    else if blendType == "feather" then Feather(1.0 / blendWidth)
    else initial
  }

  lemma SquareBelowOne(w: real)
    requires w >= 0.0
    ensures w < 1.0 <==> w * w < 1.0
  {
    if w >= 1.0 {
      assert w * w >= w * 1.0;
    }
  }

  /**
   * The blend-width test without the square root: for a non-negative strength,
   * `sqrt(area) * strength / 100 < 1` exactly when `area * strength^2 < 10000`.
   */
  lemma BlendWidthBelowOne(area: real, root: real, strength: real)
    requires root >= 0.0 && root * root == area && strength >= 0.0
    ensures BlendWidth(root, strength) < 1.0 <==> area * strength * strength < 10000.0
  {
    var p := root * strength;
    var w := BlendWidth(root, strength);
    assert w == p / 100.0;
    assert p >= 0.0;
    SquareBelowOne(w);
    assert w * w == (p * p) / 10000.0;
    assert p * p == area * strength * strength;
  }

  // ----------------------------------------------------------- refine mask

  /** A 3x3 matrix of 0/1 entries, row by row. */
  type Matrix3 = seq<seq<int>>

  const Zeros3: Matrix3 := [[0, 0, 0], [0, 0, 0], [0, 0, 0]]

  /** `m[i, j] = 1`. */
  function SetEntry(m: Matrix3, i: nat, j: nat): (r: Matrix3)
    requires i < |m| && j < |m[i]|
    ensures |r| == |m| && forall a :: 0 <= a < |m| ==> |r[a]| == |m[a]|
    ensures forall a, b :: 0 <= a < |m| && 0 <= b < |m[a]| ==>
              r[a][b] == if a == i && b == j then 1 else m[a][b]
  {
    m[i := m[i][j := 1]]
  }

  /**
   * The matrix entry that character `k` of the refinement mask controls:
   * (0,0), (0,1), (0,2), (1,1), (1,2) for k = 0..4.
   */
  function MaskEntry(k: nat): (e: (nat, nat))
    requires k < 5
    ensures e.0 < 2 && e.1 < 3
  {
    [(0, 0), (0, 1), (0, 2), (1, 1), (1, 2)][k]
  }

  /** The mask character that controls entry (i, j), if any. */
  function MaskCharFor(i: nat, j: nat): (k: Option<nat>)
    ensures k.Some? ==> k.value < 5 && MaskEntry(k.value) == (i, j)
    ensures k.None? ==> forall c :: 0 <= c < 5 ==> MaskEntry(c) != (i, j)
  {
    if i == 0 && j <= 2 then Some(j)
    else if i == 1 && 1 <= j <= 2 then Some(j + 2)
    else None
  }

  /**
   * The matrix after the first `n` of the five tests: character k equal to
   * `'x'` sets the entry it controls to 1, in order.
   */
  function MaskUpTo(mask: string, n: nat): (r: Matrix3)
    requires n <= 5 <= |mask|
    ensures |r| == 3 && forall i :: 0 <= i < 3 ==> |r[i]| == 3
    ensures forall i, j :: 0 <= i < 3 && 0 <= j < 3 ==>
              r[i][j] == (var k := MaskCharFor(i, j); if k.Some? && k.value < n && mask[k.value] == 'x' then 1 else 0)
  {
    if n == 0 then Zeros3
    else
      var m := MaskUpTo(mask, n - 1);
      if mask[n - 1] == 'x' then SetEntry(m, MaskEntry(n - 1).0, MaskEntry(n - 1).1) else m
  }

  /** The refinement mask after all five tests. A string shorter than five characters raises IndexError. */
  function RefineMask(mask: string): (r: Result<Matrix3>)
    ensures r.Err? <==> |mask| < 5
    ensures r.Err? ==> r.failure == IndexError
    ensures r.Ok? ==> |r.value| == 3 && forall i :: 0 <= i < 3 ==> |r.value[i]| == 3
    ensures r.Ok? ==> forall i, j :: 0 <= i < 3 && 0 <= j < 3 ==>
              r.value[i][j] == (var k := MaskCharFor(i, j); if k.Some? && mask[k.value] == 'x' then 1 else 0)
  {
    if |mask| < 5 then Err(IndexError) else Ok(MaskUpTo(mask, 5))
  }

  /** Reads the five flags back off a refinement matrix, `'x'` for a 1 and `'_'` otherwise. */
  function MaskFlags(m: Matrix3): (s: string)
    requires |m| == 3 && forall i :: 0 <= i < 3 ==> |m[i]| == 3
    ensures |s| == 5
  {
    seq(5, k requires 0 <= k < 5 => if m[MaskEntry(k).0][MaskEntry(k).1] == 1 then 'x' else '_')
  }

  /** Every character but `'x'` reads as `'_'`; only the first five count. */
  function NormalisedFlags(mask: string): (s: string)
    requires |mask| >= 5
    ensures |s| == 5
  {
    seq(5, k requires 0 <= k < 5 => if mask[k] == 'x' then 'x' else '_')
  }

  /**
   * Round trip: the matrix records exactly which of the first five characters
   * are `'x'`, and the entries no character controls stay 0.
   */
  lemma RefineMaskRoundTrip(mask: string)
    requires |mask| >= 5
    ensures RefineMask(mask).Ok?
    ensures MaskFlags(RefineMask(mask).value) == NormalisedFlags(mask)
    ensures RefineMask(mask).value[1][0] == 0
    ensures RefineMask(mask).value[2] == [0, 0, 0]
  {
    var m := RefineMask(mask).value;
    forall k | 0 <= k < 5
      ensures MaskFlags(m)[k] == NormalisedFlags(mask)[k]
    {
      var (i, j) := MaskEntry(k);
      assert MaskCharFor(i, j) == Some(k);
    }
    assert MaskCharFor(1, 0).None?;
    assert m[2][0] == 0 && m[2][1] == 0 && m[2][2] == 0;
  }

  /** The default mask `"xxxxx"` refines the five upper entries and nothing else. */
  lemma DefaultRefineMask()
    ensures RefineMask("xxxxx") == Ok([[1, 1, 1], [0, 1, 1], [0, 0, 0]])
  {
    var m := RefineMask("xxxxx").value;
    assert MaskCharFor(1, 0).None? && MaskCharFor(2, 0).None? && MaskCharFor(2, 1).None? && MaskCharFor(2, 2).None?;
    assert m[0] == [1, 1, 1];
    assert m[1] == [0, 1, 1];
    assert m[2] == [0, 0, 0];
    assert m == [m[0], m[1], m[2]];
  }
}
