/** The bounded step-halving search ApplyToImage runs to pick a font size. */
module FontScaler {
  import opened Numeric
  import opened Geometry

  /** The text-measuring collaborator: the height of `text` set at font size
      `size` and wrapped at `wrap`. It is deterministic and otherwise unknown. */
  type Measurer = (string, real, real) -> real

  /** The loop state: the current font size, the step `scaleFactor`, the trap
      counter, whether the last move was a grow (`isTooSmall`), the last
      measured height, and every size measured so far, in order. */
  datatype Search = Search(size: real, scale: real, trap: int, tooSmall: bool,
                           height: real, tried: seq<real>)

  /** The trap counter's start: `(int)size * 2`, raised to 10 when smaller. */
  function InitialTrap(size: real): (n: int)
    ensures n >= 10 && n >= 2 * Trunc(size)
    ensures n == 10 || n == 2 * Trunc(size)
  {
    var t := Trunc(size) * 2;
    if t < 10 then 10 else t
  }

  /** The state before the first iteration: the sentinel box is `float.MaxValue` tall. */
  function Initial(size: real): Search
  {
    Search(size, size / 2.0, InitialTrap(size), false, FloatMax, [])
  }

  /** The loop guard: the last height is outside the band and the trap has not run out. */
  predicate Searching(s: Search, b: Band)
  {
    (s.height > b.maxHeight || s.height < b.minHeight) && s.trap > 0
  }

  /** The move about to be made goes the other way from the last one
      (the state before the first move counts as having shrunk). */
  predicate Reverses(s: Search, b: Band)
  {
    (s.height > b.maxHeight && s.tooSmall) || (s.height < b.minHeight && !s.tooSmall)
  }

  /** Size, step and direction as they evolve inside one iteration. */
  datatype Stride = Stride(size: real, scale: real, tooSmall: bool)

  /** The shrink branch: too tall, so halve the step if the last move grew, then shrink. */
  function ShrinkBranch(h: real, b: Band, m: Stride): Stride
  {
    if h > b.maxHeight then
      var scale := if m.tooSmall then m.scale / 2.0 else m.scale;
      Stride(m.size - scale, scale, false)
    else m
  }

  /** The grow branch: too short, so halve the step if the last move shrank, then grow. */
  function GrowBranch(h: real, b: Band, m: Stride): Stride
  {
    if h < b.minHeight then
      var scale := if !m.tooSmall then m.scale / 2.0 else m.scale;
      Stride(m.size + scale, scale, true)
    else m
  }

  /** One loop iteration: both branches tested in turn against the same height,
      then the trap counter drops and the new size is measured at the band's wrap. */
  function Step(measure: Measurer, text: string, b: Band, s: Search): (n: Search)
    ensures n.trap == s.trap - 1
    ensures n.tried == s.tried + [n.size]
    ensures n.height == measure(text, n.size, b.wrap)
    ensures s.height > b.maxHeight && s.height >= b.minHeight ==>
              n.size == s.size - n.scale && !n.tooSmall
    ensures s.height < b.minHeight && s.height <= b.maxHeight ==>
              n.size == s.size + n.scale && n.tooSmall
    ensures b.minHeight <= b.maxHeight ==>
              n.scale == (if Reverses(s, b) then s.scale / 2.0 else s.scale)
    ensures s.scale > 0.0 ==> 0.0 < n.scale <= s.scale
  {
    var m := GrowBranch(s.height, b, ShrinkBranch(s.height, b, Stride(s.size, s.scale, s.tooSmall)));
    Search(m.size, m.scale, s.trap - 1, m.tooSmall, measure(text, m.size, b.wrap), s.tried + [m.size])
  }

  /** With an inverted band (negative padding) a height between its ends is both
      too tall and too short: one iteration takes both branches, halving the step
      once or twice, and ends having shrunk by the final step and marked as a grow. */
  lemma InvertedBandTakesBothBranches(measure: Measurer, text: string, b: Band, s: Search)
    requires b.maxHeight < s.height < b.minHeight
    ensures Step(measure, text, b, s).scale == s.scale / (if s.tooSmall then 4.0 else 2.0)
    ensures Step(measure, text, b, s).size == s.size - Step(measure, text, b, s).scale
    ensures Step(measure, text, b, s).tooSmall
  {
  }

  /** The loop, run from `s` until the guard fails. */
  function Run(measure: Measurer, text: string, b: Band, s: Search): (r: Search)
    decreases s.trap
    ensures !Searching(r, b)
    ensures |s.tried| <= |r.tried| && r.tried[..|s.tried|] == s.tried
    ensures |r.tried| == |s.tried| + (s.trap - r.trap)
    ensures s.trap >= 0 ==> 0 <= r.trap <= s.trap
    ensures |r.tried| > |s.tried| ==>
              r.size == r.tried[|r.tried| - 1] && r.height == measure(text, r.size, b.wrap)
    ensures s.scale > 0.0 ==> 0.0 < r.scale <= s.scale
  {
    if Searching(s, b) then Run(measure, text, b, Step(measure, text, b, s)) else s
  }

  /** No size in `tried` from index `from` up to, not including, the last one
      measured inside the band. */
  predicate MissesBeforeLast(measure: Measurer, text: string, b: Band, tried: seq<real>, from: nat)
  {
    forall i :: from <= i < |tried| - 1 ==> !InBand(measure(text, tried[i], b.wrap), b)
  }

  /** The loop never passes over a fitting size: every size measured before the
      last one gave a height outside the band. */
  lemma {:induction false} RunStopsAtFirstFit(measure: Measurer, text: string, b: Band, s: Search)
    decreases s.trap
    ensures MissesBeforeLast(measure, text, b, Run(measure, text, b, s).tried, |s.tried|)
  {
    if Searching(s, b) {
      var n := Step(measure, text, b, s);
      var r := Run(measure, text, b, n);
      RunStopsAtFirstFit(measure, text, b, n);
      if |r.tried| - 1 > |s.tried| {
        assert r != n;
        assert Searching(n, b);
        assert r.tried[|s.tried|] == n.size;
      }
    }
  }

  /** The whole search from the initial font size `size`. */
  function Fit(measure: Measurer, text: string, size: real, b: Band): (r: Search)
    ensures InBand(r.height, b) || r.trap == 0
    ensures 0 <= r.trap && |r.tried| == InitialTrap(size) - r.trap
    ensures size > 0.0 ==> 0.0 < r.scale <= size / 2.0
    ensures SentinelAbove(b) ==>
              1 <= |r.tried| && r.tried[0] == size / 2.0 &&
              r.size == r.tried[|r.tried| - 1] && r.height == measure(text, r.size, b.wrap)
    ensures MissesBeforeLast(measure, text, b, r.tried, 0)
  {
    RunStopsAtFirstFit(measure, text, b, Initial(size));
    Run(measure, text, b, Initial(size))
  }

  /** Below the sentinel, the first iteration always runs and always shrinks the
      font by half its starting size, without halving the step. */
  lemma FirstIterationHalvesSize(measure: Measurer, text: string, size: real, b: Band)
    requires SentinelAbove(b)
    ensures Searching(Initial(size), b)
    ensures Step(measure, text, b, Initial(size)).size == size / 2.0
    ensures Step(measure, text, b, Initial(size)).scale == size / 2.0
    ensures !Step(measure, text, b, Initial(size)).tooSmall
  {
  }

  /** A measurer that never lands in the band spends the whole trap budget. */
  lemma UnfittableExhaustsBudget(measure: Measurer, text: string, size: real, b: Band)
    requires SentinelAbove(b)
    requires forall z :: !InBand(measure(text, z, b.wrap), b)
    ensures Fit(measure, text, size, b).trap == 0
    ensures |Fit(measure, text, size, b).tried| == InitialTrap(size)
  {
  }

  /** ApplyToImage's fitting loop as an imperative `while` over the same state. */
  method FitFontSize(measure: Measurer, text: string, size: real, b: Band) returns (r: Search)
    ensures r == Fit(measure, text, size, b)
    ensures InBand(r.height, b) || r.trap == 0
    ensures |r.tried| <= InitialTrap(size)
  {
    var scaledSize := size;
    var height := FloatMax;
    var scaleFactor := scaledSize / 2.0;
    var trapCount := Trunc(scaledSize) * 2;
    if trapCount < 10 {
      trapCount := 10;
    }
    var isTooSmall := false;
    var tried: seq<real> := [];
    while (height > b.maxHeight || height < b.minHeight) && trapCount > 0
      invariant Run(measure, text, b, Search(scaledSize, scaleFactor, trapCount, isTooSmall, height, tried))
             == Fit(measure, text, size, b)
      decreases trapCount
    {
      ghost var before := Search(scaledSize, scaleFactor, trapCount, isTooSmall, height, tried);
      if height > b.maxHeight {
        if isTooSmall {
          scaleFactor := scaleFactor / 2.0;
        }
        scaledSize := scaledSize - scaleFactor;
        isTooSmall := false;
      }
      if height < b.minHeight {
        if !isTooSmall {
          scaleFactor := scaleFactor / 2.0;
        }
        scaledSize := scaledSize + scaleFactor;
        isTooSmall := true;
      }
      trapCount := trapCount - 1;
      height := measure(text, scaledSize, b.wrap);
      tried := tried + [scaledSize];
      assert Search(scaledSize, scaleFactor, trapCount, isTooSmall, height, tried)
          == Step(measure, text, b, before);
    }
    r := Search(scaledSize, scaleFactor, trapCount, isTooSmall, height, tried);
  }
}
