# Gaze tracker: calibration, prediction and smoothing, in Dafny

This project models the numeric core of a webcam gaze-to-cursor tracker. Iris and eyelid landmarks from a face mesh are turned into gaze ratios. A calibration session records those ratios while the user looks at known screen targets. A predictor then maps live ratios to a cursor pixel, and a smoother steadies the cursor. The model covers the tracker generations in the files named below; two further scripts are listed under "Left out":

- `Calibration15` is the current calibration core (`core/calibration_15point.py`). It covers:
  - the 9- or 21-target grid;
  - the per-frame collection state machine;
  - the reduction of samples to weighted ten-feature training rows;
  - gain around the centre, the screen clamp and the stateful smoother;
  - the gain clamp, and the save and load guards.
- `LegacyCalibration` is the older calibration system (`legacy/calibration_system.py`). It covers:
  - the scalar Kalman filter and the exponential moving average;
  - the 9/13/16/25-point grids;
  - the 60-frame buffered collection;
  - the normalisation predictor, the gain and alpha clamps, and the load checks. The predictor normalises against recorded entries 3, 5, 1 and 7 whatever the layout, as the source does; these are the middle-edge targets only on the 9- and 13-target layouts, and the layout-aware correction is proved separately under "Findings".
- `EarlyTracker` is the early single-file tracker (`docs/extracted_images/main.py`). It covers the cubic edge transform, the calibration state machine, `map_to_screen`, and the Kalman start-up and clamp. It shares these modules:
  - `EyeGeometry`: iris ratios and the eye aspect ratio; the current tracker computes them the same way;
  - `Normalisation`: position between the recorded extremes, and the sensitivity stretch;
  - `Smoothing`: the outlier-clamp, moving-average and blend smoother, with the constants passed in;
  - `Windows`: a bounded `deque`;
  - `Readings`: a frame's six landmark channels and their mean.
- `EnhancedTracker` covers the current tracker's wink click with its cooldown, the decision to predict, and the effect of each control command (`enhanced_tracker.py`).
- `RawGaze` covers the raw-gaze overlay's trail and pulse (`version2/ui/raw_gaze_overlay.py`).
- `SetupWizard` covers the positioning checks and the SPACE/ESC decision of the setup wizard (`version2/ui/setup_wizard.py`).
- `SimpleTracker` covers the first, nearest-neighbour tracker (`legacy/simple_eye_tracker.py`).
- `Diagnose` covers the eye-movement range diagnostic (`scripts/diagnose_eye_movement.py`).

Conventions:

- Arithmetic is exact (`real`).
- Python's `int()` is truncation toward zero (`Numeric.Trunc`). `np.clip` is `Numeric.Clip` and `np.mean` is `Numeric.Mean`.
- `deque(maxlen=n).append` is `Windows.Push`.
- Objects whose methods update their fields are classes with those fields. Pure helpers are functions.
- Square roots, norms and `arctan2` are inputs.
- The regression fit and the 4×4 Kalman step are passed in as functions. The camera frames, key presses and files they come from are also passed in, as sequences or values.

The core grid generator returns the 21-target layout for every request other than 9 (`core/calibration_15point.py:88-134`). Its docstring names 9 or 21 points (`core/calibration_15point.py:83`), and the module docstring announces 15 points (`core/calibration_15point.py:1-4`). No 15-target layout exists in the code, and no count raises an error. The model follows the code.

## Model

| member | source | states |
|---|---|---|
| Windows.Push | core/calibration_15point.py:364-365 | appending to a `deque(maxlen=cap)`: the new value is last, a full window drops its oldest element, the length never exceeds the capacity |
| Windows.PushKeepsSuffix | core/calibration_15point.py:52-53 | a window that holds the last `cap` values of a history still does after the next value is appended to both |
| Readings.Channel | core/calibration_15point.py:211-216 | one channel of a run of readings, frame by frame |
| Readings.MeanReading | core/calibration_15point.py:211-216 | each of the six channels of the averaged reading is `np.mean` of that channel over the frames |
| Readings.MeanReadingBounds | core/calibration_15point.py:211-216 | the average of a channel stays within the range its frames spanned |
| Readings.MeanReadingSteady | core/calibration_15point.py:211-216 | frames that all carry the same reading average to that reading |
| Smoothing.Step | core/calibration_15point.py:349-376 | one smoother call: after a reset the input is the last stable value; the admitted value (input, or an outlier's truncated replacement) ends each window; the output is the blend of window mean and last stable value, which becomes the new last stable value; windows stay within capacity |
| Smoothing.IsOutlier | core/calibration_15point.py:358-359 | a point that is not an outlier lies in the box of half-width `max_delta` around the last stable point, and the last stable point itself is never an outlier |
| Smoothing.Admitted | core/calibration_15point.py:359-361 | a non-outlier is admitted unchanged; an outlier's replacement is a whole number within one unit of the range between the last stable value and the input |
| Smoothing.Replacement | core/calibration_15point.py:360-361 | the replacement lies a share (1 - k) of the way from the last stable value to the input, between the two for k in [0, 1], at the last value for k = 1 and at the input for k = 0 |
| Smoothing.Mix | core/calibration_15point.py:369-370 | the blend lies a share alpha of the way from the last stable value to the window mean, and between the two for alpha in [0, 1] |
| Smoothing.Blend | core/calibration_15point.py:367-371 | the output is within one unit of the range between the window mean and the last stable value, and with alpha = 0 it is the truncated last value |
| Smoothing.FirstAfterReset | core/calibration_15point.py:351-355 | the first point after a reset comes out as its own truncation |
| Smoothing.BlendOfConstant | core/calibration_15point.py:367-371 | a window and last value that all agree blend to that value's truncation |
| Smoothing.OutlierDampened | core/calibration_15point.py:358-361 | an outlier's replacement lies strictly closer to the last stable value than the raw jump |
| Smoothing.JumpShrinks | docs/extracted_images/main.py:228-231 | the replacement rule with a share k kept from the last value shrinks a jump larger than the threshold when k times the threshold is at least one (both 0.5 x 200 and 0.7 x 300) |
| Smoothing.BlendBetween | core/calibration_15point.py:367-371 | the output is within one pixel of the range spanned by the window and the last stable value |
| Smoothing.ConstantInputIsStable | docs/extracted_images/main.py:221-246 | a whole-pixel input held from a reset is reproduced exactly on every frame |
| EyeGeometry.Xs | docs/extracted_images/main.py:174 | the x coordinates of the iris points, in order |
| EyeGeometry.Ys | docs/extracted_images/main.py:175 | the y coordinates of the iris points, in order |
| EyeGeometry.Centre | docs/extracted_images/main.py:173-175 | the iris centre of landmarks that all coincide is that landmark |
| EyeGeometry.Ratio | docs/extracted_images/main.py:195-202 | the ratio lies in [0, 1], is 0 at or before the origin and 1 at or past the padded extent |
| EyeGeometry.IrisPosition | docs/extracted_images/main.py:167-204 | both iris ratios are clipped into [0, 1] |
| EyeGeometry.RatioRecoversShare | docs/extracted_images/main.py:195-202 | an iris a share f in [0, 1] of the padded eye width past the corner reads back as f |
| EyeGeometry.RatioMonotone | docs/extracted_images/main.py:195-202 | an iris further from the origin never gives a smaller ratio |
| EyeGeometry.EyeAspectRatio | docs/extracted_images/main.py:152-165 | the eye aspect ratio is non-negative and zero exactly when both lid distances are zero |
| EyeGeometry.EyeAspectRatioMonotone | docs/extracted_images/main.py:157-164 | a more closed eye has a smaller aspect ratio |
| Normalisation.Relative | docs/extracted_images/main.py:402-418 | the position between the two recorded values is clipped into [0, 1] |
| Normalisation.Stretch | docs/extracted_images/main.py:421-430 | the sensitivity stretch stays in [0, 1] |
| Normalisation.RelativeMonotone | docs/extracted_images/main.py:402-418 | looking further along the axis never moves the position back |
| Normalisation.RelativeAtExtremes | docs/extracted_images/main.py:402-430 | gazing at the lower recorded value gives 0 and at the upper gives 1, before and after the stretch |
| Normalisation.DegenerateIsCentre | docs/extracted_images/main.py:406-414 | recorded values no further apart than the minimum range give the centre 0.5, which the stretch keeps |
| EarlyTracker.NonLinearTransform | docs/extracted_images/main.py:206-213 | the cubic edge transform maps [0, 1] into [0, 1] |
| EarlyTracker.NonLinearFixedPoints | docs/extracted_images/main.py:206-213 | the cubic edge transform keeps 0, 0.5 and 1 |
| EarlyTracker.NonLinearIncreasing | docs/extracted_images/main.py:206-213 | the cubic edge transform is strictly increasing |
| EarlyTracker.NonLinearSymmetric | docs/extracted_images/main.py:206-213 | the transform is symmetric about the centre: f(1 - v) = 1 - f(v) |
| EarlyTracker.Coords | docs/extracted_images/main.py:345-348 | one channel of the recorded iris pairs, frame by frame |
| EarlyTracker.MeanPair | docs/extracted_images/main.py:343-348 | each channel of a target's entry is the mean of that channel over its frames |
| EarlyTracker.MeanPairInUnit | docs/extracted_images/main.py:345-348 | means of clipped ratios stay in [0, 1] |
| EarlyTracker.MapToScreen | docs/extracted_images/main.py:377-440 | uncalibrated, the ratios are scaled to the display without a clamp; calibrated, the result lies on the display |
| EarlyTracker.SameRecordedGazeIsCentre | docs/extracted_images/main.py:406-409 | equal gaze at the middle-left and middle-right targets maps every gaze to the middle column |
| EarlyTracker.RecordedEdgesReachEdges | docs/extracted_images/main.py:387-438 | the gaze recorded at the middle-left target maps to column 0, at the middle-right one to the last column |
| EarlyTracker.MapToScreenMonotone | docs/extracted_images/main.py:396-438 | looking further right never moves the calibrated cursor left |
| EarlyTracker.RecordKeepsShape | docs/extracted_images/main.py:339-340 | recording a frame that does not finish a target keeps the frames-per-target shape and the mapping |
| EarlyTracker.FinishKeepsShape | docs/extracted_images/main.py:342-360 | the 60th frame of a target appends the target's position and mean frame to the mapping and moves to the next target |
| EarlyTracker.EyeControlledMouse.constructor | docs/extracted_images/main.py:68-135 | empty smoother, Kalman filter on and uninitialised, no frames recorded, not calibrated |
| EarlyTracker.EyeControlledMouse.KalmanFilterUpdate | docs/extracted_images/main.py:248-300 | the first call takes the measurement with zero velocity and returns its truncation; later calls run the filter step and clamp into [0, 1920] x [0, 1080] |
| EarlyTracker.EyeControlledMouse.SmoothCoordinates | docs/extracted_images/main.py:215-246 | the Kalman filter when on, otherwise one step of the shared smoother with window 15, jump 300, 70/30 replacement and factor 0.3 |
| EarlyTracker.EyeControlledMouse.MovingAverageUpdate | docs/extracted_images/main.py:220-246 | the state and output are those of one step of the shared smoother with the early constants |
| EarlyTracker.EyeControlledMouse.Calibrate | docs/extracted_images/main.py:319-375 | the first call only starts; each later call records the frame, the 60th frame of a target records its mean and moves on, the last target sets calibrated and resets the smoother; calibrated, nothing changes |
| EarlyTracker.EyeControlledMouse.MapToScreenNow | docs/extracted_images/main.py:377-440 | calibrated, the cursor lies on the display; uncalibrated, it is the plain scaling |
| Numeric.Trunc | core/calibration_15point.py:94-95 | Python's `int()`: truncation toward zero, within one unit of the value and never further from zero |
| Numeric.TruncMonotone | core/calibration_15point.py:344-345 | truncation never reverses the order of two values |
| Numeric.ClampInt | core/calibration_15point.py:344-345 | `max(lo, min(hi, v))` lies in [lo, hi] and keeps a value already inside |
| Numeric.Clip | version2/ui/setup_wizard.py:57 | `np.clip` lies in [lo, hi], keeps a value inside and sends a value below to lo |
| Numeric.MeanBounds | core/calibration_15point.py:211-216 | the mean of values in [lo, hi] lies in [lo, hi] |
| Numeric.ClampedPixel | version2/ui/raw_gaze_overlay.py:47-53 | a gaze ratio's pixel lies on the screen, and for a ratio in [0, 1) it is `int(ratio * dim)` unclamped; the early tracker clamps the same way (docs/extracted_images/main.py:433-438) |
| Numeric.TargetPixel | legacy/simple_eye_tracker.py:30 | a target's pixel (also legacy/calibration_system.py:273-274) is non-negative and never exceeds the exact product on either axis, for non-negative shares and dimensions |
| Calibration15.Layout | core/calibration_15point.py:88-134 | nine targets for a 9-point request and 21 for any other, every one inside [0.05, 0.95] on both axes |
| Calibration15.NineRows | core/calibration_15point.py:92-93 | the nine-point layout is the rows 0.05, 0.5, 0.95 over the same three columns |
| Calibration15.Rows | core/calibration_15point.py:92-93 | stacking rows over the same columns gives one target per row and column |
| Calibration15.RowsFromGrid | core/calibration_15point.py:92-93 | every stacked target takes its column from the columns and its height from the rows |
| Calibration15.LayoutRowMajor | core/calibration_15point.py:88-134 | both layouts list targets top row first and left to right within a row |
| Calibration15.NineRowMajor | core/calibration_15point.py:92-96 | the 3 x 3 layout is in row-major order |
| Calibration15.WideRowMajor | core/calibration_15point.py:100-134 | the 5-3-5-3-5 layout is in row-major order |
| Calibration15.RowMajorAppend | core/calibration_15point.py:103-107 | appending a lower row of increasing columns keeps the targets row-major |
| Calibration15.ToPixels | core/calibration_15point.py:94-96 | each target's pixel is `int(col * width), int(row * height)` of its fractions, in the same order |
| Calibration15.ToPixelsAppend | core/calibration_15point.py:100-134 | converting rows to pixels distributes over concatenation |
| Calibration15.AppendRow | core/calibration_15point.py:103-107 | a row's loop appends exactly that row's pixels to the grid so far |
| Calibration15.GenerateCalibrationGrid | core/calibration_15point.py:65-136 | the loops build exactly the pixels of `Layout(numPoints)` |
| Calibration15.FracPixelInRange | core/calibration_15point.py:94-95 | a fraction in [0, 1) of a positive dimension truncates into [0, dim) |
| Calibration15.PixelsOnScreen | core/calibration_15point.py:94-95 | pixels of fractions inside [0.05, 0.95] lie on the screen |
| Calibration15.GridOnScreen | core/calibration_15point.py:65-136 | every grid target satisfies 0 <= x < width and 0 <= y < height |
| Calibration15.AxisPixelMonotone | core/calibration_15point.py:94-95 | `int(f * dim)` is monotone in the fraction for a non-negative dimension |
| Calibration15.GridRowMajor | core/calibration_15point.py:65-136 | in pixels the grid never moves up, and within a row never moves left |
| Calibration15.PixelsKeepOrder | core/calibration_15point.py:94-95 | truncation to pixels keeps a row-major order (non-strictly) |
| Calibration15.PixelPairOrder | core/calibration_15point.py:94-95 | a later target's pixel is not above an earlier one, nor left of it in the same row |
| Calibration15.RowPixelOrder | core/calibration_15point.py:95 | a lower row fraction never gives a higher pixel row |
| Calibration15.ColumnPixelOrder | core/calibration_15point.py:94 | a larger column fraction never gives a smaller pixel column |
| Calibration15.Features | core/calibration_15point.py:218-231 | ten features: both eyes, the eyes' mean, right minus left, the nose, recoverable from their positions |
| Calibration15.ReadingsOf | core/calibration_15point.py:211-216 | the readings of a target's samples, one per sample in order |
| Calibration15.PointOrder | core/calibration_15point.py:197-209 | the distinct target indices of the samples, each once, in the order the grouping dict yields them |
| Calibration15.Members | core/calibration_15point.py:198-202 | a target's group holds only samples tagged with it, and is non-empty exactly when some sample is |
| Calibration15.MembersComplete | core/calibration_15point.py:198-202 | every sample tagged with the target is in its group, and the group is no longer than the samples |
| Calibration15.MembersAppend | core/calibration_15point.py:198-202 | grouping commutes with concatenation, so the group is the order-preserving filter of the samples by target |
| Calibration15.MembersSingle | core/calibration_15point.py:198-202 | one sample forms the group exactly when it is tagged with the target |
| Calibration15.CentreDistSq | core/calibration_15point.py:245-249 | squared normalised distance from the centre: never negative, zero at the centre pixel |
| Calibration15.EdgeWeight | core/calibration_15point.py:252 | the weight is at least 1, and exactly 1 at distance 0 |
| Calibration15.EdgeWeightIncreasing | core/calibration_15point.py:252 | the weight grows strictly with the distance |
| Calibration15.TrainingRows | core/calibration_15point.py:209-253 | one ten-feature row per distinct target |
| Calibration15.RowOf | core/calibration_15point.py:209-253 | a target's row has ten features that carry the per-channel mean of its samples (the features of the common reading when all samples agree), is aimed at the first sample's pixel, and weighs at least 1 |
| Calibration15.WeightsFollowDistance | core/calibration_15point.py:241-253 | every weight is at least 1 and a target further from the centre weighs more |
| Calibration15.InBlock | core/calibration_15point.py:176-181 | frame j belongs to target k exactly when 60k <= j < 60k + 60 |
| Calibration15.PointOrderOfBlocks | core/calibration_15point.py:197-209 | samples collected 60 per target group into targets 0, 1, ... in order |
| Calibration15.MembersOfBlocks | core/calibration_15point.py:198-202 | the group of target k is the k-th run of 60 frames |
| Calibration15.BlockOfTarget | core/calibration_15point.py:197-209 | in a full collection the samples of target k are exactly frames 60k to 60k+59, and they carry target k's pixels |
| Calibration15.CompleteCollectionRows | core/calibration_15point.py:197-235 | a full collection yields exactly one row per target, in grid order, averaging that target's 60 frames and aimed at its pixels |
| Calibration15.ApplyGain | core/calibration_15point.py:333-337 | a gain of 1 changes nothing and the centre is fixed |
| Calibration15.GainScalesOffset | core/calibration_15point.py:333-337 | a positive gain scales the offset from the centre by the gain and keeps its side |
| Calibration15.FallbackBounds | core/calibration_15point.py:298-302 | the uncalibrated mapping of ratios in [0, 1] lands in [0, w] x [0, h]; ratio 1 reaches w, one past the last column |
| Calibration15.Fallback | core/calibration_15point.py:298-302 | the uncalibrated pixel is non-negative for non-negative ratios and dimensions, and with both eyes at the same ratios it is that eye's scaled pixel |
| Calibration15.AxisPixelBounds | core/calibration_15point.py:302 | `int(f * dim)` of a fraction in [0, 1] lies in [0, dim] and equals dim at 1 |
| Calibration15.GainStaysInRange | core/calibration_15point.py:453-455 | from 1.0, any sequence of adjustments keeps the gain in [0.5, 2.0] |
| Calibration15.Calibration15Point.constructor | core/calibration_15point.py:22-63 | uncalibrated, empty grid and samples, gain 1.0, smoother reset |
| Calibration15.Calibration15Point.StartCalibration | core/calibration_15point.py:138-144 | uncalibrated, the grid of `num_points`, index and count 0, no samples, the collection invariant established |
| Calibration15.Calibration15Point.TrainModel | core/calibration_15point.py:190-280 | fewer than 10 samples change nothing; otherwise the fit of the training rows is installed with its errors and the object is calibrated |
| Calibration15.Calibration15Point.CollectCalibrationFrame | core/calibration_15point.py:146-188 | past the last target it returns True and changes nothing; otherwise appends the tagged sample, advances after the 60th frame, trains on completion; keeps the collection invariant and completes exactly on the last target's 60th frame |
| Calibration15.Calibration15Point.SmoothCoordinates | core/calibration_15point.py:349-376 | one step of the shared smoother with window 7, jump 200, factors 0.5 |
| Calibration15.Predicted | core/calibration_15point.py:304-347 | a failing predictor gives the fallback and keeps the smoother; a prediction lands in [0, w-1] x [0, h-1]; without smoothing the smoother is kept, and at gain 1 an on-screen prediction is only truncated |
| Calibration15.Calibration15Point.PredictScreenPosition | core/calibration_15point.py:282-347 | uncalibrated or a failing prediction gives the fallback and changes nothing; otherwise gain, optional smoothing and a clamp into [0, w-1] x [0, h-1]; when calibrated, the position and new smoother are Predicted's |
| Calibration15.Calibration15Point.ResetSmoothingFilters | core/calibration_15point.py:446-451 | the smoother is empty and nothing else changes |
| Calibration15.Calibration15Point.AdjustOutputGain | core/calibration_15point.py:453-455 | the gain becomes the old gain plus delta clipped to [0.5, 2.0] |
| Calibration15.Calibration15Point.SaveData | core/calibration_15point.py:378-391 | a record exactly when calibrated, holding size, samples, grid and errors |
| Calibration15.Calibration15Point.LoadCalibrationData | core/calibration_15point.py:408-444 | samples and grid are replaced as soon as the record is read; success exactly when the model reads and has 10 inputs or no count |
| LegacyCalibration.KalmanStep | legacy/calibration_system.py:66-85 | the remaining gap to the measurement is the old gap times (1 - gain), and the new error estimate is the gain times the measurement variance |
| LegacyCalibration.KalmanStepBounds | legacy/calibration_system.py:66-85 | the blending factor lies strictly in (0, 1); the new estimate lies between the prior estimate and the measurement (strictly when they differ); the new error estimate is positive and below the prior error |
| LegacyCalibration.PositiveShare | legacy/calibration_system.py:81 | the blending factor of positive variances is positive |
| LegacyCalibration.EmaStep | legacy/calibration_system.py:109-115 | the first measurement is taken as is |
| LegacyCalibration.EmaBetween | legacy/calibration_system.py:114 | a later step lies between the old value and the measurement; alpha 1 follows the measurement, alpha 0 holds the value |
| LegacyCalibration.KalmanFilter.constructor | legacy/calibration_system.py:53-64 | estimate 0 and error estimate 1 with the given variances |
| LegacyCalibration.KalmanFilter.Update | legacy/calibration_system.py:66-85 | the new estimate and error estimate are one Kalman step of the old ones, and the estimate is returned |
| LegacyCalibration.KalmanFilter.Reset | legacy/calibration_system.py:87-90 | estimate 0 and error estimate 1 again |
| LegacyCalibration.ExponentialMovingAverage.constructor | legacy/calibration_system.py:99-107 | the given alpha and no value yet |
| LegacyCalibration.ExponentialMovingAverage.Update | legacy/calibration_system.py:109-115 | the value becomes one EMA step of the old value and is returned |
| LegacyCalibration.ExponentialMovingAverage.Reset | legacy/calibration_system.py:117-119 | no value, alpha kept |
| LegacyCalibration.Product | legacy/calibration_system.py:214-219 | the row-by-row grid has one point per row step and column step, each pairing a column step with a row step |
| LegacyCalibration.ProductShape | legacy/calibration_system.py:214-219 | the row-by-row product grid has len(ys) x len(xs) points, all within the bounds of the steps |
| LegacyCalibration.ProductAt | legacy/calibration_system.py:214-219 | row i, column j of the product grid is the pair (xs[j], ys[i]) at position i x len(xs) + j |
| LegacyCalibration.GenerateCalibrationGrid | legacy/calibration_system.py:187-221 | a grid exactly for 9, 13, 16 or 25 points, of that many targets inside [0.1, 0.9]; any other count is the ValueError case |
| LegacyCalibration.WithGain | legacy/calibration_system.py:480-485 | the gained position stays in [0, 1] and a gain of 1 changes nothing |
| LegacyCalibration.NormaliseAxis | legacy/calibration_system.py:445-485 | the normalised, stretched and gained position on one axis lies in [0, 1] |
| LegacyCalibration.TargetAgainst | legacy/calibration_system.py:445-489 | the gaze normalised against four recorded targets, each axis scaled onto [0, W] x [0, H] |
| LegacyCalibration.RawTarget | legacy/calibration_system.py:427-497 | as written, normalising against recorded entries 3, 5, 1 and 7 whatever the layout: with 9 or more targets the unsmoothed prediction lies on the screen, [0, W] x [0, H]; with fewer it is the averaged gaze times the screen size |
| LegacyCalibration.EdgeIndices | legacy/calibration_system.py:187-221 | for 9 or more recorded targets the four middle-edge positions all lie inside the recorded list |
| LegacyCalibration.GridRawTarget | legacy/calibration_system.py:427-497 | as RawTarget, but normalising against the middle-edge targets of the layout the list was recorded on: on the screen with 9 or more targets, the averaged gaze times the screen size otherwise |
| LegacyCalibration.GridRawTargetAgrees | legacy/calibration_system.py:440-443 | outside the 16- and 25-target layouts the corrected target is the as-written one |
| LegacyCalibration.Looking | legacy/calibration_system.py:428-429 | a reading whose averaged gaze is the given point |
| LegacyCalibration.IdealPoints | legacy/calibration_system.py:440-448 | a recording whose every entry's averaged gaze is its layout target |
| LegacyCalibration.WideGridEntriesAsWritten | legacy/calibration_system.py:216-219 | on the 25-target layout entries 3, 5, 1 and 7 are (0.7, 0.1), (0.1, 0.3), (0.3, 0.1) and (0.5, 0.3), not the middle edges |
| LegacyCalibration.FixedEntriesMisplace | legacy/calibration_system.py:440-489 | whenever entry 3 sits at x = 0.7 and entry 5 at x = 0.1, an exact recording sends a gaze at x = 0.9 to 30% of the width and a gaze at x = 0.7 to the left edge |
| LegacyCalibration.WideGridMisplacesAsWritten | legacy/calibration_system.py:440-489 | on the 25-target layout with an exact recording, the as-written predictor puts the right-most column at 30% of the width |
| LegacyCalibration.SixteenEdges | legacy/calibration_system.py:212-215 | the 16-target layout's second row and second column reach x = 0.1, 0.9 and y = 0.1, 0.9 at positions 4, 7, 1 and 13 |
| LegacyCalibration.WideEdges | legacy/calibration_system.py:216-219 | the 25-target layout's middle row and column reach x = 0.1, 0.9 and y = 0.1, 0.9 at positions 10, 14, 2 and 22 |
| LegacyCalibration.GridEdgesSpanLayout | legacy/calibration_system.py:187-221 | on every supported layout the chosen left and right targets share a row at x = 0.1 and 0.9, and the top and bottom targets share a column at y = 0.1 and 0.9 |
| LegacyCalibration.IdealEdgesReachEdges | legacy/calibration_system.py:445-489 | on a layout whose chosen targets sit at 0.1 and 0.9, an exact recording sends a gaze at each of them to the matching screen edge, for a gain of at least 1 |
| LegacyCalibration.GridEdgesReachEdges | legacy/calibration_system.py:445-489 | on every supported layout, with an exact recording and a gain of at least 1, looking at the left, right, top and bottom middle-edge targets reaches x = 0, x = W, y = 0 and y = H |
| LegacyCalibration.OfDim | legacy/calibration_system.py:487-489 | a share in [0, 1] of a non-negative screen dimension lies within it |
| LegacyCalibration.DegenerateRangeIsCentre | legacy/calibration_system.py:455-463 | extremes recorded within 0.01 of each other put the axis at the centre whatever the gaze and the gain |
| LegacyCalibration.ExtremesReachEdges | legacy/calibration_system.py:450-485 | with a gain of at least 1, the recorded low extreme maps to 0 and the high extreme to 1 |
| LegacyCalibration.WithGainMonotone | legacy/calibration_system.py:480-485 | a non-negative gain keeps the order of positions |
| LegacyCalibration.NormaliseMonotone | legacy/calibration_system.py:445-485 | looking further along an axis never moves the cursor back |
| LegacyCalibration.ScreenClamp | legacy/calibration_system.py:508-510 | `int(np.clip(v, 0, dim - 1))` lies in [0, dim) and is the plain truncation for values already on screen |
| LegacyCalibration.ReadingsOf | legacy/calibration_system.py:352-353 | the readings of the recorded targets, in order |
| LegacyCalibration.HeadBaseline | legacy/calibration_system.py:351-353 | the head baseline is the per-axis mean of the recorded nose positions, and the common position when they all agree |
| LegacyCalibration.HeadBaselineBounds | legacy/calibration_system.py:351-353 | the head baseline lies within the range of the recorded nose positions |
| LegacyCalibration.AdvancedCalibrationSystem.constructor | legacy/calibration_system.py:127-179 | nine-point grid, nothing recorded, not calibrating, filters at their initial state with EMA alpha 0.4, gain 1.0 |
| LegacyCalibration.AdvancedCalibrationSystem.ResetSmoothingFilters | legacy/calibration_system.py:785-790 | both Kalman filters and both EMAs are back at their initial state |
| LegacyCalibration.AdvancedCalibrationSystem.StartCalibration | legacy/calibration_system.py:223-242 | succeeds exactly for 9, 13, 16 or 25 points (otherwise nothing changes); then the new grid, nothing recorded, calibrating, not calibrated, filters reset |
| LegacyCalibration.AdvancedCalibrationSystem.TrainMappingModel | legacy/calibration_system.py:327-399 | fewer than 4 targets change nothing; otherwise the head baseline is the mean nose position, and a successful fit makes the system calibrated with its error |
| LegacyCalibration.AdvancedCalibrationSystem.RecordPoint | legacy/calibration_system.py:286-323 | appends the averaged point aimed at the current target's pixels, moves on, and after the last target stops calibrating and trains |
| LegacyCalibration.AdvancedCalibrationSystem.CollectCalibrationFrame | legacy/calibration_system.py:254-325 | not calibrating or past the grid returns True and changes nothing; otherwise buffers the frame, and the 60th frame records the buffer's mean; one recorded point per finished target |
| LegacyCalibration.AdvancedCalibrationSystem.PredictScreenPosition | legacy/calibration_system.py:407-516 | uncalibrated gives the screen centre and changes nothing; otherwise the target normalised, as written, against recorded entries 3, 5, 1 and 7 (RawTarget), optionally through Kalman then EMA, clipped onto the screen and remembered as the last prediction |
| LegacyCalibration.AdvancedCalibrationSystem.SetOutputGain | legacy/calibration_system.py:519-521 | the gain becomes the requested gain clipped to [0.1, 5.0] |
| LegacyCalibration.AdvancedCalibrationSystem.AdjustOutputGain | legacy/calibration_system.py:523-525 | the gain becomes old gain plus delta, clipped to [0.1, 5.0] |
| LegacyCalibration.AdvancedCalibrationSystem.SetEmaAlpha | legacy/calibration_system.py:527-531 | both EMAs get the alpha clipped to [0, 1], values kept |
| LegacyCalibration.AdvancedCalibrationSystem.LoadCalibrationData | legacy/calibration_system.py:685-750 | fails with nothing changed on a missing file, an unreadable record or another screen size; succeeds exactly when both files read and the size matches, and then is calibrated |
| EnhancedTracker.NoseTip | enhanced_tracker.py:162-165 | the nose landmark as a share of the frame size: scaled back by the frame size it is the pixel position, and a landmark inside the frame lands in [0, 1] |
| EnhancedTracker.ClickFires | enhanced_tracker.py:326-339 | a click needs the left eye more closed than the right and the cooldown passed since the last click; a left eye at or above the threshold, or a gaze in the bottom 40% of the screen, never clicks |
| EnhancedTracker.ClickTimes | enhanced_tracker.py:325-340 | a run of frames produces at most one click per frame |
| EnhancedTracker.ClicksSpaced | enhanced_tracker.py:106-109 | every click comes more than the 0.5 s cooldown after the previous click, and the first more than the cooldown after the starting last-click time |
| EnhancedTracker.LookingDownNeverClicks | enhanced_tracker.py:326-335 | frames in which the average vertical ratio is above 0.6 (looking down) never click |
| EnhancedTracker.EnhancedEyeTracker.constructor | enhanced_tracker.py:55-109 | a fresh uncalibrated calibration object and an empty overlay for the screen size; cursor control and smoothing on, raw gaze hidden, last click at time 0 |
| EnhancedTracker.EnhancedEyeTracker.TrackFrame | enhanced_tracker.py:315-346 | the overlay receives the average gaze exactly when it is shown; a click fires exactly when the eyes are not looking down, the left eye is closed (EAR < 0.15), the right open and the cooldown has passed, and then the last-click time becomes now; a cursor is predicted exactly when calibrated with cursor control on, and then it and the smoother state are exactly what the calibration's predictor computes for this reading with the tracker's smoothing switch (Calibration15.Predicted); it lies on the screen whenever the fitted predictor returns a prediction (the fallback after a failed prediction, `core/calibration_15point.py:325-330`, can reach x = W, one past the last column); the calibration's model, grid, samples, counters, gain and training errors never change, and without a cursor the calibration is untouched |
| EnhancedTracker.EnhancedEyeTracker.HandleCommand | enhanced_tracker.py:493-560 | 's', 'x' and 'g' toggle exactly their own flag; 'c'/'f'/'d' leave an uncalibrated calibration collecting a fresh 9- or 21-point grid; 'z' resets the smoother; '+'/'=' and '-'/'_' move the gain by 0.1 within its clamp; hiding the overlay clears it; every other command leaves the calibration as it was |
| SetupWizard.DistanceFromRatio | version2/ui/setup_wizard.py:50-57 | the estimated distance `8 / (ratio + 0.001)` clipped into [5, 200] cm |
| SetupWizard.EstimateDistance | version2/ui/setup_wizard.py:48-57 | the distance estimate for a face width in pixels lies in [5, 200] cm |
| SetupWizard.DistanceDecreasing | version2/ui/setup_wizard.py:52-57 | a wider face never reads as further away |
| SetupWizard.HeadTilt | version2/ui/setup_wizard.py:59-69 | the tilt differs from the angle by 0 or half a turn, and an `arctan2` angle in [-180, 180] folds into [-90, 90] |
| SetupWizard.CheckPositioning | version2/ui/setup_wizard.py:71-119 | ready exactly when distance, centring, tilt and size all pass; distance passes exactly in [40, 80] cm, size exactly for a ratio in [0.15, 0.35], tilt exactly below 15 degrees; centred exactly when the eyes' midpoint is less than 20% of the frame's width and of its height away from the frame centre; the tilt is the folded angle; the ratio is the eye distance over the frame width and the distance is estimated from it |
| SetupWizard.WithinShare | version2/ui/setup_wizard.py:88-91 | an offset below the tolerance as a share of the frame is an offset below that share of the frame's pixels, both ways |
| SetupWizard.Accepts | version2/ui/setup_wizard.py:311-315 | an accepting frame has a face in view and is not ESC, and no byte key other than SPACE accepts |
| SetupWizard.Ends | version2/ui/setup_wizard.py:303-315 | with no face in view only ESC ends the wizard, and a key other than ESC or SPACE never ends it |
| SetupWizard.DistanceAndSizeAgree | version2/ui/setup_wizard.py:84-100 | the distance and size checks pass together exactly for face-width ratios in [0.15, 0.199] |
| SetupWizard.ReadyBoundsRatio | version2/ui/setup_wizard.py:99-103 | every ready status has a face-width ratio in [0.15, 0.199] |
| SetupWizard.Run | version2/ui/setup_wizard.py:233-316 | the wizard succeeds exactly when some frame has SPACE with a face whose checks all pass, and no earlier frame failed to read or pressed ESC |
| RawGaze.PhaseStep | version2/ui/raw_gaze_overlay.py:58-61 | one pulse step keeps a non-negative phase within [0, 2 pi] |
| RawGaze.PhaseCycles | version2/ui/raw_gaze_overlay.py:58-61 | after n updates from 0 the phase is `(n mod 63) * 0.1`: it runs 0, 0.1, ..., 6.2 and wraps every 63 updates |
| RawGaze.RawGazeOverlay.constructor | version2/ui/raw_gaze_overlay.py:18-37 | the overlay starts with an empty trail and phase 0 |
| RawGaze.RawGazeOverlay.Update | version2/ui/raw_gaze_overlay.py:39-61 | the gaze's clamped pixel is appended to the trail of at most 15 (dropping the oldest), it is the newest entry, and the phase advances by one step |
| RawGaze.RawGazeOverlay.Reset | version2/ui/raw_gaze_overlay.py:140-143 | the trail is empty and the phase is 0 |
| Diagnose.LeftIrisAsWrittenOutOfMesh | scripts/diagnose_eye_movement.py:24 | the left iris list as written contains 478, one past the last landmark of the 478-point mesh |
| Diagnose.IndicesInMesh | scripts/diagnose_eye_movement.py:24-27 | every index of the corrected iris lists and of both eye lists names a mesh landmark |
| Diagnose.Pick | scripts/diagnose_eye_movement.py:51-52 | the selected landmarks are those at the given indices, in order |
| Diagnose.EyeRelativePos | scripts/diagnose_eye_movement.py:49-68 | the iris position inside the eye, both ratios clipped into [0, 1], computed from the picked eye and iris landmarks |
| Diagnose.Average | scripts/diagnose_eye_movement.py:114-115 | the two eyes' average lies between them on each axis |
| Diagnose.Classify | scripts/diagnose_eye_movement.py:184-185 | a span is graded Good exactly above the good threshold and Poor exactly at or below the moderate one |
| Diagnose.ClassifyMonotone | scripts/diagnose_eye_movement.py:184-185 | a wider span never gets a worse grade |
| Diagnose.WarnsAsWritten | scripts/diagnose_eye_movement.py:235 | the warning as written implies the intended warning, and misses an x span of exactly 0.3 when the y span is fine |
| Diagnose.WarningMissesBoundary | scripts/diagnose_eye_movement.py:218-235 | a horizontal span of exactly 0.3 is graded poor, yet the recommendation as written does not warn |
| Diagnose.WarnsExactlyWhenPoor | scripts/diagnose_eye_movement.py:217-250 | the corrected recommendation warns exactly when an axis is graded poor |
| Diagnose.Horizontal | scripts/diagnose_eye_movement.py:124 | the horizontal components of a run of averages, in order |
| Diagnose.Vertical | scripts/diagnose_eye_movement.py:125 | the vertical components of a run of averages, in order |
| Diagnose.ProjectionsAppend | scripts/diagnose_eye_movement.py:124-125 | appending an average appends its components to both projections |
| Diagnose.WidenEncloses | scripts/diagnose_eye_movement.py:118-121 | widening the bounds by a new value keeps every observed value enclosed |
| Diagnose.PushTracks | scripts/diagnose_eye_movement.py:46-47 | the 100-entry history keeps holding the most recent observed values after an append |
| Diagnose.ObserveKeepsConsistent | scripts/diagnose_eye_movement.py:111-125 | one more observation keeps the bounds enclosing every average and the histories holding the latest ones |
| Diagnose.EyeMovementDiagnostic.constructor | scripts/diagnose_eye_movement.py:39-47 | the bounds start inverted (min 1, max 0) with empty histories |
| Diagnose.EyeMovementDiagnostic.Observe | scripts/diagnose_eye_movement.py:111-125 | the new bounds are the old ones widened by the eyes' average, both histories receive it, the bounds only widen, and positions inside the unit square keep the bounds inside it |
| Diagnose.EyeMovementDiagnostic.LiveGrades | scripts/diagnose_eye_movement.py:168-187 | each axis is Good exactly when its span exceeds 0.5 (x) or 0.4 (y), Poor exactly when it is at most 0.3 (x) or 0.25 (y) |
| Diagnose.EyeMovementDiagnostic.FinalReport | scripts/diagnose_eye_movement.py:212-250 | the report grades each span as the live display does and warns, as written, exactly when the horizontal span is below 0.3 or the vertical span below 0.25; a warning always comes with a poor axis |
| SimpleTracker.IrisXs | legacy/simple_eye_tracker.py:19-20 | the x coordinates of the eight iris landmarks, in list order |
| SimpleTracker.IrisYs | legacy/simple_eye_tracker.py:19-21 | the y coordinates of the eight iris landmarks, in list order |
| SimpleTracker.GetEyePos | legacy/simple_eye_tracker.py:18-22 | the mean iris position divided by 640 and 480; landmarks inside the frame give a position in the unit square |
| SimpleTracker.Dist2 | legacy/simple_eye_tracker.py:62 | the squared distance is non-negative and zero at the record's own gaze |
| SimpleTracker.Nearest | legacy/simple_eye_tracker.py:62-63 | `np.argmin`: the index of a record at least as near as every other and strictly nearer than every earlier one |
| SimpleTracker.ShouldMove | legacy/simple_eye_tracker.py:85 | the cursor moves only for a prediction, and never for one with a zero coordinate (Python's truthiness test) |
| SimpleTracker.Predict | legacy/simple_eye_tracker.py:60-64 | no prediction exactly when there are no records; otherwise the screen pixel of the first nearest record |
| SimpleTracker.ExactQueryHitsRecord | legacy/simple_eye_tracker.py:60-64 | querying a recorded gaze selects a record at distance 0, no later than the queried one |
| Numeric.KeyCode | legacy/simple_eye_tracker.py:48 | `key & 0xFF` (also version2/ui/setup_wizard.py:303) is a byte, a key code that is already a byte is kept, and -1 (no key) becomes 255 |
| SimpleTracker.Step | legacy/simple_eye_tracker.py:33-54 | one pass keeps records at their targets' pixels, in order, and Completed exactly when all five are in; a finished state is left alone; it appends at most one record; it aborts only on ESC |
| SimpleTracker.Run | legacy/simple_eye_tracker.py:29-55 | the state after a run of passes is still consistent |
| SimpleTracker.RunFinished | legacy/simple_eye_tracker.py:50-54 | a completed or aborted calibration no longer changes |
| SimpleTracker.RunExtends | legacy/simple_eye_tracker.py:27-54 | a run only appends records, and ends aborted only if some pass pressed ESC |
| SimpleTracker.AbortedIsPartial | legacy/simple_eye_tracker.py:54 | an aborted calibration holds fewer than five records |
| SimpleTracker.CalibratedPredictionsMove | legacy/simple_eye_tracker.py:83-85 | with a complete calibration on a screen of at least 10 x 10 pixels every prediction has two non-zero coordinates, so the cursor always moves |
| SimpleTracker.EyeTracker.constructor | legacy/simple_eye_tracker.py:10-15 | the tracker starts with no calibration records |
| SimpleTracker.EyeTracker.Calibrate | legacy/simple_eye_tracker.py:24-58 | the records and the outcome are those of running the calibration passes from no records |

## Left out

- Camera capture, the face mesh, drawing, windows, the control panel, the tracking thread, text-to-speech, logging and cursor movement or clicks are outside the model. Landmark positions, gaze ratios, key codes and times arrive as inputs.
- Floating point is modelled as exact real arithmetic. Rounding error, NaN and infinities are not captured.
- Diagnose.EyeMovementDiagnostic.FinalReport: promises only that a warning comes with a poor axis, not the converse, because the source's rule misses a span exactly at the moderate threshold (see "Findings").
- The polynomial-ridge and RBF fits and their predictions are outside the model. Each is passed in as a function of the training rows, which returns the fitted predictor or its error. The 10-sample and 4-point guards and the rows fed to the fit are modelled.
- The 4×4 constant-velocity Kalman predict and update (`docs/extracted_images/main.py:266-290`) is passed in as a step function. Only the first-measurement start-up and the final clamp are modelled.
- Square roots, `np.linalg.norm` and `arctan2` are inputs. The eye width and height, the eye distance and the tilt angle are taken as given values.
- JSON and pickle files, `os.path.exists` and `os.remove` are not modelled. A file is modelled as missing, unreadable or a value. The save guard, the load size and feature-count checks, and the order in which load takes over fields are modelled.
- EnhancedTracker.EnhancedEyeTracker.HandleCommand: 'c', 'f' and 'd' model only `start_calibration`. The calibration camera loop in `run_calibration` (`enhanced_tracker.py:180-280`) is outside the model.
- EnhancedTracker.EnhancedEyeTracker.HandleCommand: 'r' only reads the cursor and prints. 'q' saves files, closes the panel and stops the loop. Neither is modelled.
- `add_incremental_calibration_point` and `get_calibration_quality_metrics` (`legacy/calibration_system.py:601-635`, `752-783`) are not part of this model. Nor is the automatic save after training (`legacy/calibration_system.py:405`).
- LegacyCalibration.AdvancedCalibrationSystem.PredictScreenPosition: the fitted model is checked for presence, as the source does, but never evaluated. The source also never evaluates it on this path.
- The early tracker's `process_frame` and run loop are not modelled. `EarlyTracker.NonLinearTransform` (`docs/extracted_images/main.py:206-213`) is modelled with its properties, but the source never calls it: the frame path goes from `map_to_screen` straight to `smooth_coordinates`.
- EarlyTracker.MapToScreen: requires a calibrated mapping to hold at least 13 entries. The source indexes entry 12 and would raise on a shorter mapping. The source only ever builds a mapping of 15.
- EnhancedTracker.NoseTip and SetupWizard.EstimateDistance: require a positive frame size. The source divides by it.
- SetupWizard.Run: the wizard's drawing and its per-frame face-mesh call are outside the model. A frame arrives as its status (or no face) and its key code.
- SimpleTracker.Dist2: ranks records by squared distance rather than by its square root. The square root is strictly increasing, so both pick the same record. The distance values themselves are not modelled.
- SimpleTracker.EyeTracker.Calibrate: the model reads a finite stream of camera passes, and a stream that runs out leaves the outcome Collecting. The source loops until ESC or the fifth SPACE, skipping failed reads.
- The simple tracker's `run` loop and its `cal.json` load and save are not modelled. The cursor-move decision is modelled as `SimpleTracker.ShouldMove`.
- SimpleTracker.GetEyePos: divides by the fixed 640×480 frame size, as the source does, whatever size the camera delivers.
- The diagnostic's camera loop, window and quit key are not modelled. Each face frame is one `Observe` call with the two eyes' positions.
- Diagnose.EyeRelativePos: computes the iris position with the eye lists as the diagnostic declares them (`scripts/diagnose_eye_movement.py:26-27`). Each list is one corner, the other corner, three upper-lid points and one lower-lid point. The position-by-position reading (`scripts/diagnose_eye_movement.py:57-60`) therefore takes an upper-lid point (159 or 386) as the far corner, and a "top" that averages a corner with an upper-lid point. The lists are also paired with the other eye's iris: `[33, …]` goes with 474-478, while the early tracker pairs 474-477 with `[362, …]` (`docs/extracted_images/main.py:147-150`). The model computes what the diagnostic computes. It does not prove what the ratios then mean or model a corrected layout.
- Calibration15.Calibration15Point.PredictScreenPosition: `poly_features.transform` (`core/calibration_15point.py:319`) runs outside the `try`. A feature-count mismatch there raises instead of falling back to the averaged-gaze mapping. The model folds every failure of the fitted predictor into that fallback. The mismatch needs a load that the feature-count check rejects (`core/calibration_15point.py:430-436`) after an earlier calibration. That load has already installed the old transformer and leaves `is_calibrated` set.
- `legacy/versoin2.py` is not part of this model. It is a top-level camera script (iris midpoint to cursor, averaged-EAR blink click) with no reusable functions. As written it cannot click: it assigns `qcurrent_time` (line 88) and then reads `current_time` (line 89), which is never defined.
- `integrated_eye_tracker.py` is not part of this model. Its iris-ratio and nose helpers (lines 94-142) compute what `enhanced_tracker.py:122-165` computes, which `EyeGeometry` and `EnhancedTracker` model. Its calibration and run loops are camera and key handling.

## Findings

| source | as written | input that shows it | evidently intended | confidence | as-written member | corrected member |
|---|---|---|---|---|---|---|
| scripts/diagnose_eye_movement.py:235 | the recommendation warns when the x span is `< 0.3` or the y span is `< 0.25` | x span exactly 0.3 and y span 0.5: the report grades x as POOR, then says detection looks good | warn exactly when an axis is graded POOR (`<= 0.3`, `<= 0.25`) | not executed | Diagnose.WarningMissesBoundary | Diagnose.WarnsExactlyWhenPoor |
| legacy/calibration_system.py:440-443 | the predictor normalises against entries 3, 5 (horizontal) and 1, 7 (vertical) of the recorded list whatever the layout, as if it were the 9-target one | a 25-target calibration (`integrated_eye_tracker.py:373`) recorded exactly: entry 3 is at x = 0.7 and entry 5 at x = 0.1, so a gaze at the right-most column lands at 30% of the width and a gaze at x = 0.7 on the left edge | normalise against the layout's own middle-row ends and middle-column ends, so each edge target reaches its screen edge | not executed | LegacyCalibration.WideGridMisplacesAsWritten | LegacyCalibration.GridEdgesReachEdges |
| scripts/diagnose_eye_movement.py:24 | the left iris list is `[474, 475, 476, 477, 478]` | any face frame: the refined mesh has landmarks 0 to 477, so index 478 is out of range | the four left-iris contour points `[474, 475, 476, 477]` that the other trackers use | not executed | Diagnose.LeftIrisAsWrittenOutOfMesh | Diagnose.IndicesInMesh |
