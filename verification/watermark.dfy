/** ApplyToImage: fit the caption's font size to the image, then draw it
    bottom-right aligned; and the caller that labels the latest snapshot. */
module Watermark {
  import opened Geometry
  import opened FontScaler
  import opened Placement

  datatype Color = Color(r: nat, g: nat, b: nat, a: nat)

  const White: Color := Color(255, 255, 255, 255)

  /** A draw instruction handed to the rendering collaborator. */
  datatype TextDraw = TextDraw(text: string, color: Color, size: real, origin: Point,
                               horizontal: HorizontalAlignment, vertical: VerticalAlignment,
                               wrap: real)

  /** Fits `text` to `img` starting from font size `fontSize`, then returns the
      draw instruction; `fit` is the final search state. */
  method ApplyToImage(measure: Measurer, img: ImageSize, fontSize: real, text: string,
                      color: Color, padding: real, firstRow: bool)
    returns (fit: Search, draw: TextDraw)
    ensures fit == Fit(measure, text, fontSize, TargetsFor(img, padding))
    ensures draw.text == text && draw.color == color && draw.size == fit.size
    ensures img.width as real - draw.wrap == 2.0 * padding
    ensures draw.origin == Anchor(img, padding, firstRow)
    ensures draw.horizontal == AlignRight && draw.vertical == AlignBottom
    ensures |fit.tried| > 0 ==> fit.height == measure(text, draw.size, draw.wrap)
    ensures InBand(fit.height, TargetsFor(img, padding)) || fit.trap == 0
  {
    var targets := TargetsFor(img, padding);
    fit := FitFontSize(measure, text, fontSize, targets);
    draw := TextDraw(text, color, fit.size, Anchor(img, padding, firstRow),
                     AlignRight, AlignBottom, targets.wrap);
  }

  /** The padding the snapshot labeller passes. */
  const LabelPadding: real := 10.0

  /** The font size the snapshot labeller starts from. */
  const LabelFontSize: real := 14.0

  /** Labels a snapshot with its time, lifted into the first row, and its date below. */
  method LabelLatestImage(measure: Measurer, img: ImageSize, time: string, date: string)
    returns (draws: seq<TextDraw>)
    ensures |draws| == 2
    ensures draws[0].text == time && draws[1].text == date
    ensures draws[0].color == White && draws[1].color == White
    ensures draws[0].origin.x == draws[1].origin.x == img.width as real - LabelPadding
    ensures draws[0].origin.y == draws[1].origin.y - FirstRowLift
    ensures draws[1].origin.y == img.height as real - LabelPadding
    ensures draws[0].wrap == draws[1].wrap == img.width as real - 2.0 * LabelPadding
    ensures draws[0].size == Fit(measure, time, LabelFontSize, TargetsFor(img, LabelPadding)).size
    ensures draws[1].size == Fit(measure, date, LabelFontSize, TargetsFor(img, LabelPadding)).size
    ensures forall i :: 0 <= i < 2 ==>
              draws[i].horizontal == AlignRight && draws[i].vertical == AlignBottom
  {
    var _, timeDraw := ApplyToImage(measure, img, LabelFontSize, time, White, LabelPadding, true);
    var _, dateDraw := ApplyToImage(measure, img, LabelFontSize, date, White, LabelPadding, false);
    draws := [timeDraw, dateDraw];
  }

  /** A measurer that reports 500 whatever the size can never reach the band of a
      1920x1080 image at padding 10, so the 14-point search spends all 28 iterations. */
  lemma StuckMeasurerSpendsBudget(text: string)
    ensures var fit := Fit((t: string, z: real, w: real) => 500.0, text, LabelFontSize,
                           TargetsFor(ImageSize(1920, 1080), LabelPadding));
            fit.trap == 0 && |fit.tried| == 28
  {
    var b := TargetsFor(ImageSize(1920, 1080), LabelPadding);
    assert InitialTrap(LabelFontSize) == 28;
    UnfittableExhaustsBudget((t: string, z: real, w: real) => 500.0, text, LabelFontSize, b);
  }

  /** A measurer proportional to the size, `1.2 * size`. */
  function Linear(t: string, z: real, w: real): real
  {
    1.2 * z
  }

  /** Growing by a fixed step of 3.5 that stays short of the band for the rest
      of the budget: every remaining iteration grows, and the budget runs out. */
  lemma {:induction false} LinearGrowthRunsOut(text: string, b: Band, s: Search)
    requires b.minHeight <= b.maxHeight
    requires s.tooSmall && s.scale == 3.5 && s.trap >= 0
    requires s.height < b.minHeight
    requires 1.2 * (s.size + 3.5 * s.trap as real) < b.minHeight
    decreases s.trap
    ensures Run(Linear, text, b, s).trap == 0
    ensures Run(Linear, text, b, s).size == s.size + 3.5 * s.trap as real
  {
    if s.trap > 0 {
      var n := Step(Linear, text, b, s);
      assert n.size == s.size + 3.5 && n.trap == s.trap - 1;
      LinearGrowthRunsOut(text, b, n);
    }
  }

  /** With a measurer proportional to the size, the snapshot labeller's call on a
      1920x1080 image never fits: after one reversal the step is 3.5, the band
      [1050, 1060] needs a size near 875, and all 28 iterations end at size 101.5. */
  lemma LinearStubNeverFits(text: string)
    ensures var fit := Fit(Linear, text, LabelFontSize, TargetsFor(ImageSize(1920, 1080), LabelPadding));
            fit.trap == 0 && fit.size == 101.5
  {
    var b := TargetsFor(ImageSize(1920, 1080), LabelPadding);
    assert InitialTrap(LabelFontSize) == 28;
    var s0 := Initial(LabelFontSize);
    var s1 := Step(Linear, text, b, s0);
    assert s1.size == 7.0 && s1.scale == 7.0 && !s1.tooSmall;
    var s2 := Step(Linear, text, b, s1);
    assert s2.size == 10.5 && s2.scale == 3.5 && s2.tooSmall && s2.trap == 26;
    LinearGrowthRunsOut(text, b, s2);
  }

  /** Under the proportional measurer each caption of the snapshot labeller ends
      taller than the fixed lift between the two rows, so the rows overlap. */
  lemma LinearCaptionsOverlap(text: string)
    ensures var fit := Fit(Linear, text, LabelFontSize, TargetsFor(ImageSize(1920, 1080), LabelPadding));
            fit.height == 121.8 && fit.height > FirstRowLift
  {
    ImageBandBelowSentinel(ImageSize(1920, 1080), LabelPadding);
    LinearStubNeverFits(text);
  }
}
