# Multi-camera frame stitching: a Dafny model

This project models the stitching core of a multi-camera video application.
The application shows several cameras side by side and stitches their frames
into one panorama with OpenCV's detailed stitching pipeline. The model covers
three source files:

- `frame_stitcher.py`: the `FrameStitcher` class. Its constructor calibrates
  once from a set of initial frames: it extracts features, finds the biggest
  component, estimates and bundle-adjusts the cameras, applies wave
  correction, and prepares the seam-scale warps and the exposure compensator.
  `stitch_frames` then composes every later set of frames with the cameras
  the object holds.
- `old_frame_stitcher.py`: the script version of the same pipeline. `main`
  calibrates from the first frame of three videos, prunes the images to the
  biggest component, and calls `stitch_frame` once on the initial frames to
  size its video writer. It then calls `stitch_frame` on every later set of
  frames, showing and writing each result.
- `video_display_widget.py`: the grid of camera canvases. Each canvas has a
  dropdown. A camera selected in one canvas is offered in no other canvas's
  dropdown; a camera no canvas has selected is offered in every dropdown.

The modules follow the program's structure:

- `Common`: failures, results, images and frame sizes.
- `Median`: the median-focal rule and why its result is a median.
- `MedianScaling`: how the median behaves when every focal is scaled.
- `Cameras`: camera parameters, rescaling and the warped image scale.
- `Choices`: the matcher, compensator, blender and refinement-mask choices.
  Both stitchers use them.
- `Extraction`: `feature_extractor`.
- `FrameStitching`: the class and its functional specification.
- `OldFrameStitching`: the script.
- `VideoDisplay`: the widget.

How OpenCV appears in the model:

- OpenCV calls whose results the model cannot compute are inputs, gathered in
  an `OpenCv` record. These are the detector table, `leaveBiggestComponent`,
  the estimator, the bundle adjuster and `waveCorrect`.
- The other calls appear as the requests they receive: the seam warps, the
  ROI requests and the frames fed to the blender.
- `np.sqrt` is a function parameter.
- Python's `exit()` and the exceptions the code can raise become `Err`
  values of one `Failure` type. `IndexError`, `KeyError`, `ZeroDivision`,
  `ResizeFailed` (OpenCV's `cv.resize` refusing a scale factor that is not
  positive) and `BlenderIsNone` (a call on a `None` blender) each have their
  own value.

Where the source changes state in place, the model does too:

- `FrameStitching.FrameStitcher` is a class with the object's fields.
- `OldFrameStitching` keeps the caller's camera list as an `array` that
  `stitch_frame` rescales in place, and the `args` record as an object whose
  flag it sets.
- `VideoDisplay.VideoDisplayWidget` holds its canvases' dropdowns and grid
  cells as fields.

Every state-changing method is proved against a pure function of the old
state, and that function's properties are proved as lemmas.

The class's `stitch_frames` rescales the stored cameras again on every call;
this is the one finding ("## Findings").

Observations about the script. These are behaviours of the code as written
that the model records; they are not claimed to be bugs, and the model keeps
them as they are:

- The script's `stitch_frame` has the same compounding for the caller's
  cameras, but not for the warped image scale, which `main` recomputes from
  the sorted focals each time (`OldFrameStitching.CamerasCompoundScaleDoesNot`).
  After the second call, the warper's scale no longer matches the cameras' focals.
- The script never prunes the cameras to the biggest component, only the
  images and sizes (`OldFrameStitching.SeamWarpsUseUnprunedCameras`).
- The script passes all initial frames to `stitch_frame`, together with the
  pruned size list. When the biggest component drops a frame, the first call
  therefore raises IndexError, and `main` stops before its loop shows
  anything (`OldFrameStitching.PrunedFrameStopsFirstCall`).

## Model

| member | source | states |
|---|---|---|
| Choices.GetMatcher | frame_stitcher.py:154-171 | The confidence is the given one, else 0.3 for ORB and 0.65 for any other detector. The affine matcher is chosen exactly for "affine", with full-affine off. Otherwise a range width of -1 gives the plain matcher and any other width the range matcher with that width. GPU use is always requested. |
| Choices.AffineIgnoresRangeWidth | frame_stitcher.py:165-166 | With the affine matcher, the range width has no effect. |
| Choices.ConfidenceIndependentOfMatcher | frame_stitcher.py:157-163 | The confidence depends only on the given confidence and the detector, not on the matcher type or range width. |
| Choices.LookupExposComp | frame_stitcher.py:6-11 | The table lookup succeeds exactly for the five keys "gain_blocks", "gain", "channel", "channel_blocks" and "no". Any other key is a KeyError. |
| Choices.ExposCompTableRoundTrip | frame_stitcher.py:6-11 | Each compensator kind is found under its own key, and a key that is found is the key of the kind it yields, so the table is a bijection. |
| Choices.GetCompensator | frame_stitcher.py:173-184 | An unknown option is a KeyError. "channel" gives a channels compensator with the feed count. "channel_blocks" gives a blocks-channels compensator with a square block of the given size. Every other kind gives OpenCV's default compensator of that kind, never of a channel kind. |
| Choices.ChooseBlender | frame_stitcher.py:309-321 | A blend width below 1 gives the no-op blender. Otherwise "multiband" gives a multiband blender with that width, "feather" a feather blender with sharpness 1/width in (0, 1], and any other type the no-op blender. |
| Choices.BlendWidth | frame_stitcher.py:312 | The blend width is a percentage of the square root of the area. It is non-negative for a non-negative root and strength, at most the root for a strength up to 100, and equal to the root at strength 100. |
| Choices.BlendWidthBelowOne | frame_stitcher.py:312-313 | With root = sqrt(area), the blend width is below 1 exactly when area * strength^2 < 10000. |
| Choices.RefineMask | frame_stitcher.py:123-133 | A mask string shorter than five characters raises IndexError. Otherwise entry (0,0), (0,1), (0,2), (1,1) or (1,2) is 1 exactly when character 0, 1, 2, 3 or 4 is 'x', and every other entry is 0. |
| Choices.RefineMaskRoundTrip | frame_stitcher.py:123-133 | Reading the five flags back out of the matrix gives the string's first five characters, with every character other than 'x' read as '_'. Row 2 and entry (1,0) stay 0. |
| Choices.DefaultRefineMask | frame_stitcher.py:88 | The default "xxxxx" gives [[1,1,1],[0,1,1],[0,0,0]]. |
| Cameras.K | frame_stitcher.py:243 | The intrinsic matrix is 3x3 and upper triangular, with last row (0, 0, 1). It has the focal length at (0,0), focal times aspect at (1,1), and the principal point in the last column. |
| Cameras.Focals | frame_stitcher.py:235 | One focal per camera, in camera order. |
| Cameras.Rescaled | frame_stitcher.py:283-285 | Focal, ppx and ppy are each multiplied by the factor. Aspect and rotation are unchanged. |
| Cameras.RescaleTwice | frame_stitcher.py:283-285 | Two rescales are one rescale by the product of the factors. |
| Cameras.ScaleK | frame_stitcher.py:243-248 | The third row of K is unchanged. |
| Cameras.ScaleKIsRescaledK | frame_stitcher.py:243-248 | Scaling entries (0,0), (0,2), (1,1) and (1,2) of K by swa is K of the camera rescaled by swa. |
| Cameras.RescalePrefix | frame_stitcher.py:282-285 | The first n cameras are rescaled and the rest are unchanged. |
| Cameras.RescalePrefixKeepsRotations | frame_stitcher.py:282-285 | Rescaling never changes a rotation. |
| Cameras.RescalePrefixTwice | frame_stitcher.py:282-285 | Rescaling every camera twice by a is rescaling once by a*a. |
| Cameras.WarpedImageScale | frame_stitcher.py:235-240 | The warped image scale fails exactly when there are no cameras. |
| Median.Sort | frame_stitcher.py:236 | Sorting keeps the length. Order and elements are stated by `SortOrders` and `SortPermutes`. |
| Median.Middle | frame_stitcher.py:237-240 | The result is the mean of the lower and the upper middle element, which are the same element when the count is odd. On a sorted list it lies between those two elements. |
| Median.Insert | frame_stitcher.py:236 | Insertion adds exactly one occurrence of the element. |
| Median.InsertKeepsSorted | frame_stitcher.py:236 | Inserting into a sorted list keeps it sorted. |
| Median.SortSorts | frame_stitcher.py:236 | `focals.sort()` gives a sorted permutation of its input. |
| Median.SortPermutes | frame_stitcher.py:236 | The sorted list has the same multiset of elements. |
| Median.SortOrders | frame_stitcher.py:236 | The sorted list is in ascending order. |
| Median.SortedPermutationUnique | frame_stitcher.py:236 | Two sorted lists with the same elements are equal, so the sorted order is unique. |
| Median.MedianFocal | frame_stitcher.py:235-240 | An empty focal list raises IndexError, and any other list gives a value. |
| Median.MedianFocalIsMedian | frame_stitcher.py:235-240 | The result is a median: at most half the focals lie strictly below it, and at most half strictly above it. |
| Median.MedianOfSortedIsMedian | frame_stitcher.py:237-240 | The middle element of the sorted list, or the mean of the two middle elements, is a median of the unsorted list. |
| Median.MedianOfThree | frame_stitcher.py:237-238 | An odd-length case: focals 30, 10, 20 give 20. |
| Median.MedianOfEqualPair | frame_stitcher.py:239-240 | Two equal focals give that focal as the median. |
| Median.MedianOfFour | frame_stitcher.py:239-240 | An even-length case: focals 40, 30, 10, 20 give the mean 25 of the two middle ones. |
| Median.SortOfThree | frame_stitcher.py:236 | A concrete case: 30, 10, 20 sorts to 10, 20, 30. |
| Median.MedianIgnoresOrder | frame_stitcher.py:235-240 | The result depends only on the multiset of focals, not their order. |
| Median.MapReals | frame_stitcher.py:235 | The list comprehension applies the function element by element. |
| Median.MapKeepsSorted | frame_stitcher.py:236 | A strictly increasing function keeps a sorted list sorted. |
| Median.MapInsert | frame_stitcher.py:236 | A strictly increasing function commutes with insertion. |
| Median.MapSort | frame_stitcher.py:236 | A strictly increasing function commutes with sorting. |
| MedianScaling.MiddleOfMapped | frame_stitcher.py:237-240 | A function that preserves the mean of the two middle elements commutes with taking the middle. |
| MedianScaling.MedianOfMapped | frame_stitcher.py:235-240 | A strictly increasing, mean-preserving function commutes with the median rule. |
| MedianScaling.MedianTimes | frame_stitcher.py:235-240 | Multiplying every focal by a > 0 multiplies the median by a. |
| MedianScaling.FocalsOfRescaled | frame_stitcher.py:283 | The focals of the rescaled cameras are the old focals times the factor. |
| MedianScaling.RescaledMedianFocal | frame_stitcher.py:280-283 | Rescaling every camera by a > 0 multiplies the median focal by a. |
| Extraction.MegapixScale | frame_stitcher.py:204 | A frame of area zero is a ZeroDivision. Otherwise the scale is capped at 1. |
| Extraction.FirstScales | frame_stitcher.py:197-216 | A failure is a ZeroDivision exactly when the frame has area zero, and otherwise a failed `cv.resize`. In particular work_megapix == 0 gives a work scale of 0, and the resize at that scale fails. On success both scales lie in (0, 1] and seam_work_aspect * work_scale == seam_scale. The work scale is exactly 1 when work_megapix < 0, and the seam scale exactly 1 when seam_megapix <= 0. |
| Extraction.Extract | frame_stitcher.py:186-221 | Extraction succeeds exactly when the detector is available, there is at least one frame, every frame was read, and the first frame's scales can be computed and resized to. On success there is one work image, seam image and size per frame, and a positive work scale. |
| Extraction.ExtractFeatures | frame_stitcher.py:186-221 | The loop over the frames computes exactly `Extract`. |
| Extraction.ExtractScalesBounded | frame_stitcher.py:197-213 | The stored scales are at most 1, are exactly 1 under the switches above, and satisfy seam_work_aspect * work_scale == seam_scale. |
| Extraction.ScalesFromFirstFrameOnly | frame_stitcher.py:203-213 | Two frame lists with the same first frame get the same work scale, seam scale and aspect. |
| Extraction.ExtractPerFrame | frame_stitcher.py:197-217 | Frame k contributes its own (width, height), its seam image at the seam scale, and its work image at the work scale. |
| Extraction.MissingFrameFails | frame_stitcher.py:194-196 | A frame that could not be read (None) makes extraction fail. When the first frame is None and the detector is available, the failure is CannotReadImages. |
| FrameStitching.SettingsOf | frame_stitcher.py:78-95 | The extraction uses the object's megapixel targets and detector, and the matcher `get_matcher` picks from its options. |
| FrameStitching.WaveCorrected | frame_stitcher.py:143-149 | With wave correction off the cameras are unchanged. With it on, the call fails with IndexError exactly when OpenCV returns fewer rotations than there are cameras. |
| FrameStitching.SeamWarps | frame_stitcher.py:242-249 | Image i is warped with K of camera i scaled by seam_work_aspect and with camera i's rotation. |
| FrameStitching.Adjust | frame_stitcher.py:102-149 | A successful adjustment has at least two frames, one work image, seam image and size per frame, and a positive work scale. |
| FrameStitching.Calibrate | frame_stitcher.py:75-152 | A constructed stitcher has at least two frames, at least as many cameras as frames, one seam image and seam warp per frame, a positive work scale, and the biggest component's indices as given. A failure before preparation is the constructor's failure. |
| FrameStitching.Prepare | frame_stitcher.py:223-264 | Preparation succeeds exactly when there is a camera, there are at least as many cameras as images, and the compensator key is in the table. No cameras or too few cameras is an IndexError, and an unknown key a KeyError. There is one seam warp per image. |
| FrameStitching.CalibrationIgnoresComponent | frame_stitcher.py:105 | The biggest-component indices are stored and never used: any other index list gives the same outcome with only `indices` changed. |
| FrameStitching.OneFrameNeedsMore | frame_stitcher.py:106-109 | A single readable frame stops construction with "Need more images". |
| FrameStitching.FailureOrder | frame_stitcher.py:112-138 | With two or more frames, estimation failure is reported first, then a short refinement mask (IndexError), then adjustment failure. |
| FrameStitching.WaveCorrectionOnlyRotates | frame_stitcher.py:139-149 | Wave correction keeps the adjusted cameras' number, focals, aspects and principal points. It only replaces rotations, with the first ones OpenCV returned, or changes nothing when it is off. |
| FrameStitching.WarpedScaleIsMedianFocal | frame_stitcher.py:235-249 | The stored warped image scale is a median of the cameras' focals. The seam warper uses scale * seam_work_aspect, and every seam warp uses the camera's K rescaled by seam_work_aspect and its rotation. |
| FrameStitching.DefaultChoices | frame_stitcher.py:78-95 | With every option at its default, construction picks the plain matcher with confidence 0.65, a 32x32 blocks-channels compensator with one feed, and the full refinement mask. |
| FrameStitching.ComposeScale | frame_stitcher.py:275-279 | The compose scale is 1 unless compose_megapix > 0. It never exceeds 1, and a zero-area frame is a ZeroDivision. |
| FrameStitching.RescaleCount | frame_stitcher.py:282-289 | The rescale loop reaches camera i and rescales it before it reads size i. So it rescales the number of frames, or stops at the first missing camera, or one camera past the last size. |
| FrameStitching.ComposeImage | frame_stitcher.py:293-297 | A frame is resized exactly when the compose scale differs from 1 by more than 0.1. |
| FrameStitching.Rois | frame_stitcher.py:286-291 | ROI request i uses size i, the compose scale, K of camera i and its rotation. |
| FrameStitching.Feeds | frame_stitcher.py:298-300 | Frame i is warped with camera i. |
| FrameStitching.BlenderFor | frame_stitcher.py:309-321 | A feather blender needs blend type "feather" and has a sharpness in (0, 1]. A multiband blender needs "multiband" and has a width of at least 1. |
| FrameStitching.Compose | frame_stitcher.py:280-332 | Composition keeps the number of cameras. |
| FrameStitching.Stitch | frame_stitcher.py:266-332 | A call keeps the number of cameras. |
| FrameStitching.StitchOnce | frame_stitcher.py:266-291 | The corrected call keeps the number of cameras, and a compose scale that is already set stays as it was. |
| FrameStitching.StitchSucceedsIff | frame_stitcher.py:266-332 | A call succeeds exactly when it has no frames in time-lapse mode, or has frames, a computable compose scale, a camera and a size for each frame, and time-lapse off. It returns no image exactly in time-lapse mode. Too few cameras or sizes give IndexError. Any remaining failure is the `None` blender. |
| FrameStitching.StitchLeavesRescaledState | frame_stitcher.py:266-291 | Whatever a call returns, once the compose scale is known the warped image scale is multiplied by compose_scale / work_scale and the cameras the loop reaches are rescaled, so a call that fails with IndexError or in time-lapse mode still leaves them rescaled. A call with no frames or a failed compose scale changes neither. |
| FrameStitching.StitchedFeedsUseRescaledCameras | frame_stitcher.py:275-303 | After a successful call, the warped image scale is multiplied by compose_scale / work_scale and the warper uses it. Each frame's camera is rescaled by that factor, the warp and the ROI use the rescaled K with the unchanged rotation, and cameras beyond the frames are untouched. |
| FrameStitching.DefaultComposeScale | frame_stitcher.py:276-279 | With compose_megapix <= 0, the compose scale is 1 and frames are not resized. |
| FrameStitching.StitchTwiceCompounds | frame_stitcher.py:266-285 | Two calls with a camera per frame rescale every camera by a and then by a again. The warped image scale becomes wis * a^2. |
| FrameStitching.StitchKeepsMedianScale | frame_stitcher.py:280-285 | In a call that rescales every camera, a warped image scale equal to the median focal stays equal to the median focal of the rescaled cameras. |
| FrameStitching.ExampleExtraction | frame_stitcher.py:197-213 | Default options on two 2400x1000 frames give work scale sqrt(0.6e6 / 2.4e6) = 0.5. |
| FrameStitching.ExampleCalibration | frame_stitcher.py:75-152 | A stitcher built with default options from two 2400x1000 frames and two adjusted cameras of focal 100 has work scale 0.5 and warped image scale 100. |
| FrameStitching.CompoundingExample | frame_stitcher.py:266-285 | From that constructed stitcher, stitching the same two frames twice leaves focal 200 after the first call and 400 after the second, and the warped scale 100 becomes 400. |
| FrameStitching.StitchOnceFirstCall | frame_stitcher.py:266-291 | The corrected first call behaves exactly like the call as written. |
| FrameStitching.StitchOnceIdempotent | frame_stitcher.py:96-99 | A second corrected call with the same frames changes nothing further. |
| FrameStitching.StitchOnceKeepsCameras | frame_stitcher.py:96-99 | Once the compose scale is set, a corrected call leaves the cameras, the warped image scale and the compose scale as they were. |
| FrameStitching.FrameStitcher.constructor | frame_stitcher.py:75-152 | Construction stops exactly when calibration fails, recording that failure. Otherwise the fields hold the calibrated state, and the compose-scale flag starts unset with scale 1. |
| FrameStitching.FrameStitcher.StitchFrames | frame_stitcher.py:266-332 | The method updates the stored cameras and warped image scale, and returns the result, exactly as `Stitch` describes. |
| FrameStitching.FrameStitcher.StitchFramesOnce | frame_stitcher.py:266-332 | The corrected method updates cameras, warped image scale, flag and compose scale exactly as `StitchOnce` describes. |
| FrameStitching.ComposeFrames | frame_stitcher.py:280-332 | The loop computes exactly `Compose`. |
| FrameStitching.CalibrateFrames | frame_stitcher.py:101-152 | The steps compute exactly `Calibrate`. |
| FrameStitching.PrepareWarpingAndBlending | frame_stitcher.py:223-264 | The steps compute exactly `Prepare`. |
| FrameStitching.AdjustCameras | frame_stitcher.py:101-149 | The steps compute exactly `Adjust`. |
| FrameStitching.CorrectWaves | frame_stitcher.py:143-149 | The loop computes exactly `WaveCorrected`. |
| FrameStitching.WarpSeams | frame_stitcher.py:242-254 | The loop fails with IndexError exactly when there are fewer cameras than images. Otherwise it computes `SeamWarps`. |
| FrameStitching.RescaleAndMeasure | frame_stitcher.py:282-291 | The loop rescales the cameras it reaches and reports IndexError exactly when a camera or size is missing. Otherwise ROI request i uses rescaled camera i. |
| OldFrameStitching.Args.constructor | old_frame_stitcher.py:257-281 | The settings record starts with its compose-scale flag unset. |
| OldFrameStitching.OldSettings | old_frame_stitcher.py:126-129 | Extraction always uses work scale 0.6, seam scale 0.1 and the SIFT detector, whatever the arguments say. The matcher comes from the arguments. |
| OldFrameStitching.OldExtractionIsDefaultExtraction | old_frame_stitcher.py:126-166 | With the script's own arguments, the script's extraction is the class's default extraction. |
| OldFrameStitching.Feed | old_frame_stitcher.py:212-241 | Feeding succeeds exactly when every frame has a warped seam mask and time-lapse is off. It then feeds frame i with camera i. |
| OldFrameStitching.StitchFrameSpec | old_frame_stitcher.py:170-252 | A call keeps the number of cameras. It leaves the flag set exactly when it had frames and a computable compose scale. |
| OldFrameStitching.StitchFrame | old_frame_stitcher.py:170-252 | The method rescales the caller's camera array in place, sets the flag on `args`, and returns exactly what `StitchFrameSpec` describes. |
| OldFrameStitching.RescaleCameras | old_frame_stitcher.py:194-203 | The loop rescales the cameras it reaches in place and reports IndexError exactly when a camera or size is missing. Otherwise ROI request i uses rescaled camera i. |
| OldFrameStitching.FeedFrames | old_frame_stitcher.py:206-241 | The loop computes exactly `Feed`. |
| OldFrameStitching.CamerasCompoundScaleDoesNot | old_frame_stitcher.py:170-197 | Two calls rescale the caller's cameras by a and then again by a, but each warper uses the passed scale times a. |
| OldFrameStitching.StitchFrameResult | old_frame_stitcher.py:170-252 | Whatever the result, the cameras the loop reaches are rescaled by compose_scale / work_scale and the rest are kept; no rotation changes. Too few cameras, sizes or masks give IndexError, and time-lapse mode exits. A success shows the blend with zoom 600 / result width, fed and measured with the rescaled cameras. |
| OldFrameStitching.SubsetByIndices | old_frame_stitcher.py:358-365 | Taking the subset fails with IndexError exactly when some index is out of range. |
| OldFrameStitching.SubsetElements | old_frame_stitcher.py:361-363 | Element i of the subset is the element at index i of the original list. |
| OldFrameStitching.SubsetOfAllIndices | old_frame_stitcher.py:358-365 | Selecting every index in order is the identity. |
| OldFrameStitching.SubsetOfSubset | old_frame_stitcher.py:358-365 | A subset of a subset is the subset by the composed indices. |
| OldFrameStitching.SelectSubset | old_frame_stitcher.py:358-365 | The loop succeeds exactly when both subsets exist, and returns them. |
| OldFrameStitching.MainCalibrate | old_frame_stitcher.py:300-400 | A successful calibration keeps at least two images, exactly as many as the biggest component lists, with one size and one seam warp each. It has at least as many cameras as kept images, one frame size per initial frame, and a positive work scale. |
| OldFrameStitching.CalibrateMain | old_frame_stitcher.py:300-400 | The script's calibration steps compute exactly `MainCalibrate`. |
| OldFrameStitching.MainScaleIsMedianFocal | old_frame_stitcher.py:331-338 | The sorted focals are sorted and are a permutation of the cameras' focals. The warped image scale is their middle value and a median of the focals. |
| OldFrameStitching.SeamWarpsUseUnprunedCameras | old_frame_stitcher.py:358-392 | The kept images and sizes are those at the biggest-component indices, and there are at least two. Seam warp i uses camera i of the unpruned camera list. |
| OldFrameStitching.Run | old_frame_stitcher.py:418-433 | Repeated calls keep the number of cameras and show at most one result per set of frames, exactly one per set when nothing fails. |
| OldFrameStitching.RunStep | old_frame_stitcher.py:418-433 | A run from set k is one call on set k, followed by the run from set k+1 with the cameras that call left, unless the call fails. |
| OldFrameStitching.StitchPass | old_frame_stitcher.py:433 | One call on set k advances the run from set k to set k+1. |
| OldFrameStitching.StitchLoop | old_frame_stitcher.py:418-444 | The `while True` loop leaves the cameras, the shown results and the failure exactly as `Run` describes, with the median of the sorted focals each time. |
| OldFrameStitching.MainRun | old_frame_stitcher.py:256-444 | `main` fails exactly when calibration fails, with calibration's failure. Otherwise it keeps the number of cameras. It shows at most one result per later set of frames, and exactly one per later set when nothing fails. The first call's result only sizes the writer and is never shown. |
| OldFrameStitching.StitchVideos | old_frame_stitcher.py:256-444 | The script computes exactly `MainRun`: calibration, one call on the initial frames, then the loop on the later frames with the cameras that call left. |
| OldFrameStitching.PrunedFrameStopsFirstCall | old_frame_stitcher.py:358-409 | If the biggest component drops a frame, the first call raises IndexError, so `main` ends before its loop and nothing is shown. |
| VideoDisplay.CurrentText | single_camera_canvas.py:43 | The current item, or "" when the index is out of range. |
| VideoDisplay.Cleared | video_display_widget.py:71 | Clearing leaves no items and no current text. |
| VideoDisplay.WithItems | single_camera_canvas.py:35-37 | The items are appended. An empty box that gets items selects the first one. |
| VideoDisplay.FindText | video_display_widget.py:78 | The first index of the text, or -1 exactly when it is absent. |
| VideoDisplay.WithCurrentText | video_display_widget.py:78 | The items stay. A present text becomes current, and an absent one changes nothing. |
| VideoDisplay.WithCurrentIndex | single_camera_canvas.py:18 | The items stay, and an index in range makes its item current. |
| VideoDisplay.Available | video_display_widget.py:72-76 | The filter never adds cameras. |
| VideoDisplay.AvailableMembership | video_display_widget.py:72-76 | A camera is offered exactly when it is detected and is either not selected anywhere or is this canvas's previous selection. |
| VideoDisplay.AvailableIsSubsequence | video_display_widget.py:72-76 | The offered cameras keep the detection order. |
| VideoDisplay.Repopulated | video_display_widget.py:69-78 | A canvas's new items are the filter applied with its previous selection. |
| VideoDisplay.RepopulatedKeepsSelection | video_display_widget.py:69-78 | A canvas whose previous selection is a detected camera keeps that selection. |
| VideoDisplay.RepopulatedHidesOthers | video_display_widget.py:72-76 | A camera selected in another canvas is not offered in this one. |
| VideoDisplay.GridCell | video_display_widget.py:38-47 | There are 3 columns, and row * 3 + column recovers the canvas index. |
| VideoDisplay.GridCellInjective | video_display_widget.py:46-48 | No two canvases share a cell. |
| VideoDisplay.InitialCamera | video_display_widget.py:41 | The initial camera index is in range, and is the canvas index when there are enough cameras. |
| VideoDisplay.DeviceName | video_display_widget.py:27 | `str(i)` for a device below 10 is one digit. |
| VideoDisplay.DeviceNamesDistinct | video_display_widget.py:24-27 | Different devices get different names. |
| VideoDisplay.OpenDevices | video_display_widget.py:22-32 | At most one name per probed device. |
| VideoDisplay.OpenDevicesMembership | video_display_widget.py:24-28 | A device's name is listed exactly when it was probed and opened. |
| VideoDisplay.DetectAvailableCameras | video_display_widget.py:22-32 | The loop over devices 0..9 computes exactly `OpenDevices`. |
| VideoDisplay.Selections | video_display_widget.py:67 | The selection list has each canvas's current text, in canvas order. |
| VideoDisplay.NewCanvas | single_camera_canvas.py:12-18 | A new canvas offers every camera and selects its index when in range. |
| VideoDisplay.InitialDropdowns | video_display_widget.py:39-49 | The canvas dropdowns before the first repopulation. |
| VideoDisplay.InitialSelections | video_display_widget.py:39-49 | Before the first update, canvas i has camera i selected. |
| VideoDisplay.InitialCanvases | video_display_widget.py:34-53 | After construction, canvas i still shows camera i. It offers exactly camera i and the cameras no canvas selected. |
| VideoDisplay.VideoDisplayWidget.constructor | video_display_widget.py:12-20 | The widget probes the devices and closes exactly when none or too few are found. With too few it builds nothing. Otherwise canvas i sits in grid cell i and is repopulated from the initial selections. |
| VideoDisplay.VideoDisplayWidget.InitUi | video_display_widget.py:34-53 | The method builds one canvas per requested camera in its grid cell, then repopulates them all. |
| VideoDisplay.VideoDisplayWidget.UpdateDropdownOptions | video_display_widget.py:65-79 | Every dropdown is repopulated from the selections as they were before the update began. |
| VideoDisplay.VideoDisplayWidget.OnCameraSelectionChanged | video_display_widget.py:58-63 | An out-of-range canvas index raises IndexError and changes nothing. Otherwise every dropdown is repopulated. |
| VideoDisplay.VideoDisplayWidget.SelectCamera | single_camera_canvas.py:26-45 | Picking the current item changes nothing. Picking another item makes it current, and then every dropdown is repopulated against the selections that include the pick. |
| VideoDisplay.Picked | single_camera_canvas.py:26 | The picked item becomes the canvas's current camera; the other canvases are unchanged. |
| VideoDisplay.PickedCameraHiddenElsewhere | video_display_widget.py:58-78 | After a pick and the refill, the picked camera is restored as the canvas's selection, and a canvas that had not selected it no longer offers it. |

## Left out

- OpenCV itself is not modelled: feature detection, matching, estimation,
  bundle adjustment, wave correction, warping, seam finding, exposure
  compensation, blending, `normalize` and `resize`. Their results are inputs,
  or the model records what they are given. `cv.resize` is taken to succeed
  for a positive scale factor. The extraction's resizes at the work and seam
  scales fail with `ResizeFailed` when the factor is not positive, as OpenCV's
  does. The composition resize is not checked: its compose scale comes from
  `compose_megapix > 0`, so a real square root never makes it zero.
- Floating point is not modelled: reals are exact. The `int(round(...))` of
  the composed sizes is left out; the ROI request keeps the full size and the
  compose scale. The float32 casts of K and R are left out too.
- The multiband blender's band count (a logarithm) is left out. The blender
  records only its blend width.
- `np.sqrt` is an uninterpreted function parameter. `Choices.BlendWidthBelowOne`
  assumes a root of the area only for the argument it is used on.
- I/O is not modelled: opening and reading the videos, `imshow`, the video
  writer, `waitKey` and the 'q' key, `print`, logging and `QMessageBox`.
  Reading the three videos becomes a sequence of frame sets. The end of a
  video, or a 'q' press, is the end of that sequence.
- `time.time` and the elapsed-time printing are left out.
- `main`'s three hard-coded videos are generalised to any number of frames
  per set. `main`'s argument assignments are the `MainArgs` record, equal to
  the class defaults. `save_graph` is never used, so it is left out.
- The tables the code never consults are left out: `BA_COST_CHOICES`,
  `SEAM_FIND_CHOICES`, `ESTIMATOR_CHOICES` and `WARP_CHOICES`. The detector
  table is an input, because its contents depend on the OpenCV build.
- The script's `stitch_frame` takes the warped seam masks from
  `seam_finder.find`. The model keeps only their number (`masksCount`), which
  indexing depends on. The width of the blended result is a parameter.
- `VideoDisplay`: Qt is not modelled. The dropdown follows `QComboBox`
  semantics as plain functions: `clear`, `addItems` selecting the first item
  of an empty box, `setCurrentText` selecting the first match, and
  `currentText` of "" with no selection.
- `VideoDisplay`: `blockSignals` is not modelled. Signals are not modelled
  as such: a user's pick is `SelectCamera`, which moves the box's current
  index and, when it changed, makes the `OnCameraSelectionChanged` call the
  signal would make.
- `VideoDisplay`: `self.close()` is modelled as the `closed` flag. Camera
  capture, `change_camera`, `release_camera`, the `VideoSyncManager` and the
  grid layout widget itself are not modelled. `single_camera_canvas.py`,
  beyond its dropdown, is not part of this model.
- `VideoDisplay.VideoDisplayWidget.InitUi`: the exception handler around the
  set-up is left out. Nothing the model performs there can raise, so it
  never triggers.
- `Median.Sort` states only the length in its own contract. Sortedness and
  permutation are the lemmas `Median.SortOrders` and `Median.SortPermutes`,
  which keep every proof that mentions the median small.
- `FrameStitching.Compose`, `FrameStitching.Stitch` and
  `OldFrameStitching.StitchFrameSpec` state only the camera count in their
  own contracts. Their behaviour is in `StitchSucceedsIff`,
  `StitchedFeedsUseRescaledCameras` and `StitchLeavesRescaledState` for the
  class, and `StitchFrameResult` for the script, including the state a call
  that fails part way leaves behind.
- `OldFrameStitching.StitchFrameSpec`: a zero work scale is reported as
  `ZeroDivision`. numpy would divide `compose_scale` by that `np.float64` zero
  and give infinity instead. No extraction passes a zero work scale on: it
  fails at the resize first.

## Findings

| source | as written | input that shows it | evidently intended | confidence | as-written member | corrected member |
|---|---|---|---|---|---|---|
| frame_stitcher.py:266-285 | `is_compose_scale_set` is a local reset on every call, so each call multiplies the stored cameras' focal, ppx and ppy and the warped image scale by compose_scale / work_scale again | A stitcher built with default options from two 2400x1000 frames (work scale sqrt(0.25) = 0.5) whose adjusted cameras have focal 100: stitching the same frames makes the focal 200 after one call and 400 after two | Rescale once, with the object's own `is_compose_scale_set` and `compose_scale` (initialised at lines 96-99 and otherwise unused) | not executed | FrameStitching.CompoundingExample | FrameStitching.StitchOnceIdempotent |
