# Watermark fitting model

A Dafny model of `Watermark.ApplyToImage` from the growing-image-sync Azure
function, the routine that stamps the time and date of the latest snapshot into
its bottom-right corner. It has two parts:

- **Font fitting** (module `FontScaler`). The image size and padding give a
  wrap width `W - 2p` and a height band `[H - 3p, H - 2p]` (module `Geometry`).
  Starting from a sentinel box `float.MaxValue` tall, the loop shrinks the font
  while the measured height is too tall and grows it while it is too short. Each
  move is by `scaleFactor`, which starts at half the font size and is halved
  whenever the direction reverses. A trap counter `max(10, (int)size * 2)` bounds
  the loop. `Step` is one iteration, `Run` and `Fit` are the reference loop, and
  `FitFontSize` is the C# `while` loop of `ApplyToImage`, proved equal to `Fit`.
- **Placement** (modules `Placement` and `Watermark`). The anchor is
  `(W - p, H - p)`, lifted by exactly 100 for the first row. The text is drawn
  right/bottom aligned at the same wrap width every measurement used.
  `LabelLatestImage` is the caller's pattern: time in the first row, date in the
  second, padding 10, a 14-point font.

The text measurer (`TextMeasurer.MeasureSize`) is a parameter of type
`(string, real, real) -> real`: text, font size and wrap width give a height.
Drawing is modelled as the `TextDraw` instruction `ApplyToImage` returns.
Sizes and heights are `real`. The C# `(int)` cast is `Numeric.Trunc`, which
rounds toward zero.

As written, the code:
- starts from the `float.MaxValue` sentinel, with no initial measurement;
- does not short-circuit empty text;
- never clamps the font size, so it may reach zero or go negative;
- lifts the first row by the constant 100, whatever the font size.

The two `if`s of the loop body are tested one after the other against the same
height. With a negative padding the band's ends are inverted, and both fire in
an iteration whose height lies strictly between them.
`InvertedBandTakesBothBranches` states what happens then.

## Model

| member | source | states |
|---|---|---|
| Numeric.Trunc | Utilities/Watermark.cs:35 | the `(int)` cast drops the fraction toward zero: the result lies within one of the size, on the zero side |
| Geometry.TargetsFor | Utilities/Watermark.cs:23-27 | the wrap width is `W - 2p`, the band top is `H - 2p`, and the band is exactly one padding wide |
| Geometry.BandOrder | Utilities/Watermark.cs:25-27 | the band is non-empty iff padding >= 0, and its bottom is strictly below its top iff padding > 0 |
| Geometry.ImageBandBelowSentinel | Utilities/Watermark.cs:25-32 | for any int-sized image and non-negative padding, the band lies strictly below the `float.MaxValue` sentinel |
| FontScaler.InitialTrap | Utilities/Watermark.cs:35-39 | the trap counter starts at the larger of 10 and twice the truncated font size |
| FontScaler.Step | Utilities/Watermark.cs:43-70 | one iteration costs exactly one trap unit and one measurement at the band's wrap width; a height above the top and not below the bottom shrinks by exactly the new step and clears isTooSmall, a height below the bottom and not above the top grows by it and sets isTooSmall; with an ordered band, the step is halved iff the move reverses the previous one; a positive step stays positive and never grows |
| FontScaler.InvertedBandTakesBothBranches | Utilities/Watermark.cs:45-64 | for a height strictly between the ends of an inverted band, one iteration takes both branches: the step is halved once or twice, the size ends one step lower and isTooSmall ends set |
| FontScaler.Run | Utilities/Watermark.cs:43-72 | the loop exits only with the height in the band or the trap at 0; each iteration adds one measured size and takes one trap unit; the trap never goes below 0; earlier measurements are kept as a prefix; the final size and height are those of the last measurement; a positive step stays positive and never grows |
| FontScaler.RunStopsAtFirstFit | Utilities/Watermark.cs:43-72 | every size measured before the last one gave a height outside the band, so the loop never passes over a fitting size |
| FontScaler.Fit | Utilities/Watermark.cs:31-72 | from the sentinel: the exit height is in the band or the trap is 0; the number of measurements is the initial trap minus the trap left; a positive start keeps the step in (0, size/2]; below the sentinel the first size measured is exactly half the starting size, and the result is the last size measured; no earlier size fit |
| FontScaler.FirstIterationHalvesSize | Utilities/Watermark.cs:32-53 | below the sentinel, the loop is always entered and the first iteration shrinks by half the starting size without halving the step |
| FontScaler.UnfittableExhaustsBudget | Utilities/Watermark.cs:35-65 | below the sentinel, a measurer that never lands in the band uses the whole budget: the trap ends at 0 after exactly the initial trap number of measurements |
| FontScaler.FitFontSize | Utilities/Watermark.cs:31-72 | the imperative loop computes exactly `Fit`, exits in the band or with the trap spent, and measures at most the initial trap number of times |
| Placement.Anchor | Utilities/Watermark.cs:74-82 | the anchor is one padding in from the right edge and from the bottom edge, plus 100 more from the bottom for the first row |
| Placement.FirstRowSitsAbove | Utilities/Watermark.cs:79-82 | for the same image and padding, the first-row anchor is in the same column and exactly 100 above the second-row anchor |
| Watermark.ApplyToImage | Utilities/Watermark.cs:16-91 | the font is fitted against the image's targets; the text is drawn in the caller's color, right/bottom aligned at the anchor, at wrap width `W - 2p`, at the fitted size; the drawn size and wrap are those of the last measurement; the exit height is in the band or the trap is spent |
| Watermark.LabelLatestImage | UpdateLatestImageWithLabel.cs:85-86 | the time and date are drawn in white, right/bottom aligned, in the same column at `W - 10` and at the same wrap width, each at the size fitted from 14 points against the image's targets at padding 10; the date sits at `H - 10` and the time exactly 100 above it |
| Watermark.LinearGrowthRunsOut | Utilities/Watermark.cs:43-65 | once growing by a step of 3.5 that cannot reach the band within the remaining budget, every iteration grows by 3.5 and the loop ends with the trap at 0 |
| Watermark.LinearStubNeverFits | Utilities/Watermark.cs:31-72 | with a measurer returning 1.2 times the size, a 1920x1080 image, padding 10 and a 14-point start, the search spends all its budget and ends at size 101.5, far short of the band |
| Watermark.LinearCaptionsOverlap | Utilities/Watermark.cs:79-82 | with a measurer returning 1.2 times the size, a 1920x1080 image and padding 10, each caption ends 121.8 tall, taller than the 100 lift between the two rows' anchors |
| Watermark.StuckMeasurerSpendsBudget | Utilities/Watermark.cs:35-43 | a measurer stuck at height 500 on a 1920x1080 image with padding 10 and a 14-point font runs all 28 iterations and ends with the trap at 0 |

## Left out

- IEEE-754 single-precision arithmetic: sizes, heights and halvings are exact `real`s, so rounding is not modelled, and neither are NaN or infinite heights from the measurer (a NaN height fails both comparisons of the loop guard and would end the loop outside the band with trap left).
- Numeric.Trunc: the overflow of `(int)` on sizes beyond the `int` range is not modelled.
- FontScaler.InitialTrap: the 32-bit wrap-around of `* 2` is not modelled; for sizes in [2^30, 2^31) C# wraps to a negative value and the trap becomes 10, while the model gives twice the truncated size.
- The text measurer's line breaking and font metrics: the measurer is an arbitrary deterministic parameter. The measured box's width is never read by the code and is not modelled.
- The `Font` handle: only its size is tracked. The family and style never change during the search.
- Rasterisation by `DrawText`: the model returns the draw instruction and does not change an image.
- `LabelLatestImage`: models only lines 85-86 of UpdateLatestImageWithLabel.cs. Blob listing, download and upload, environment variables, `Environment.Exit`, embedded font loading, JPEG encoding, the filename regex, `DateTime` parsing and formatting, and the HTTP callback are I/O or .NET library behaviour. The time and date strings are parameters.
- ConvertDayToVideo.cs is a placeholder trigger with no logic. Utilities/Stopwatch.cs is timing instrumentation. Utilities/FontLoader.cs is resource loading. None of them is part of this model.
