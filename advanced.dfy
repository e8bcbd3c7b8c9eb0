/** advanced_features.py: the extra effects and the parameters they derive
    from the intensity, the content analysis with its recommendation rule,
    and the 2x2 comparison grid. */
module Advanced {
  import opened Common
  import opened Media

  // ---------------------------------------------------------------------
  // Parameters derived from the intensity.

  /** `int(3 + intensity * 4)` */
  function BrushSize(intensity: real): (b: int)
    ensures 0.0 <= intensity <= 1.0 ==> 3 <= b <= 7
  {
    TruncBetween(3.0 + intensity * 4.0, 3, 7);
    Trunc(3.0 + intensity * 4.0)
  }

  /** `int(1 + intensity * 2)` */
  function BrushStrokes(intensity: real): (s: int)
    ensures 0.0 <= intensity <= 1.0 ==> 1 <= s <= 3
  {
    TruncBetween(1.0 + intensity * 2.0, 1, 3);
    Trunc(1.0 + intensity * 2.0)
  }

  /** `max(4, int(6 + intensity * 2))` colours for the anime quantiser. */
  function AnimeColours(intensity: real): (k: int)
    ensures k >= 4
    ensures 0.0 <= intensity <= 1.0 ==> 6 <= k <= 8
  {
    TruncBetween(6.0 + intensity * 2.0, 6, 8);
    Max(4, Trunc(6.0 + intensity * 2.0))
  }

  /** A value between two integers truncates to a value between them. */
  lemma TruncBetween(x: real, lo: int, hi: int)
    ensures 0 <= lo && lo as real <= x <= hi as real ==> lo <= Trunc(x) <= hi
  {
  }

  /** Truncation toward zero never decreases. */
  lemma TruncMonotone(x: real, y: real)
    requires x <= y
    ensures Trunc(x) <= Trunc(y)
  {
  }

  /** Every derived parameter grows with the intensity. */
  lemma ParametersGrow(i: real, j: real)
    requires i <= j
    ensures BrushSize(i) <= BrushSize(j)
    ensures BrushStrokes(i) <= BrushStrokes(j)
    ensures AnimeColours(i) <= AnimeColours(j)
  {
    TruncMonotone(3.0 + i * 4.0, 3.0 + j * 4.0);
    TruncMonotone(1.0 + i * 2.0, 1.0 + j * 2.0);
    TruncMonotone(6.0 + i * 2.0, 6.0 + j * 2.0);
  }

  // ---------------------------------------------------------------------
  // The effects.

  /** `apply_oil_painting_effect`: the oil-painting filter, or when it
      raises, the bilateral-filter blend of the `except` block (which
      itself may raise). */
  function OilPainting(f: Frame, intensity: real, tk: Toolkit): Outcome<Frame> {
    match tk.oilPainting(f, BrushSize(intensity), BrushStrokes(intensity), intensity)
    case Ok(g) => Ok(g)
    case Raised(_) => tk.oilFallback(f, intensity)
  }

  /** `apply_watercolor_effect` */
  function Watercolor(f: Frame, intensity: real, tk: Toolkit): Frame {
    OrInput(tk.watercolor(f, intensity), f)
  }

  /** `apply_anime_style` */
  function Anime(f: Frame, intensity: real, tk: Toolkit): Frame {
    OrInput(tk.anime(f, AnimeColours(intensity), intensity), f)
  }

  /** `apply_vintage_film_effect` */
  function Vintage(f: Frame, intensity: real, tk: Toolkit): Frame {
    OrInput(tk.vintage(f, intensity), f)
  }

  /** Watercolor, anime and vintage give back the input frame when their
      filter raises and that filter's result otherwise; oil painting falls
      back to its blend instead, and only that blend can make it raise. */
  lemma EffectsFallBack(f: Frame, i: real, tk: Toolkit)
    ensures tk.watercolor(f, i).Raised? ==> Watercolor(f, i, tk) == f
    ensures tk.watercolor(f, i).Ok? ==> Watercolor(f, i, tk) == tk.watercolor(f, i).value
    ensures tk.anime(f, AnimeColours(i), i).Raised? ==> Anime(f, i, tk) == f
    ensures tk.anime(f, AnimeColours(i), i).Ok? ==> Anime(f, i, tk) == tk.anime(f, AnimeColours(i), i).value
    ensures tk.vintage(f, i).Raised? ==> Vintage(f, i, tk) == f
    ensures tk.vintage(f, i).Ok? ==> Vintage(f, i, tk) == tk.vintage(f, i).value
    ensures tk.oilPainting(f, BrushSize(i), BrushStrokes(i), i).Raised? ==> OilPainting(f, i, tk) == tk.oilFallback(f, i)
    ensures OilPainting(f, i, tk).Raised? ==>
      tk.oilPainting(f, BrushSize(i), BrushStrokes(i), i).Raised? && tk.oilFallback(f, i).Raised?
  {
  }

  // ---------------------------------------------------------------------
  // The recommendation rule.

  datatype Recommendation = Recommendation(effect: string, reason: string, confidence: real)

  function Effects(rs: seq<Recommendation>): (es: seq<string>)
    ensures |es| == |rs| && forall k | 0 <= k < |rs| :: es[k] == rs[k].effect
  {
    seq(|rs|, k requires 0 <= k < |rs| => rs[k].effect)
  }

  const DarkReason := "Low light conditions work well with vintage film effects"
  const LivelyReason := "High motion content benefits from anime-style simplification"
  const RichReason := "Rich color palette perfect for oil painting effect"
  const PlainReason := "Simple color palette works beautifully with pencil sketches"

  /** The recommendations for the averaged brightness, motion and colour
      count, cut to the first three. */
  function Recommend(brightness: real, motion: real, diversity: real): (rs: seq<Recommendation>)
    ensures 1 <= |rs| <= 3
  {
    var dark := if brightness < 80.0 then [Recommendation("vintage_film", DarkReason, 0.8)] else [];
    var lively := if motion > 5.0 then [Recommendation("anime", LivelyReason, 0.7)] else [];
    var palette := if diversity > 50000.0
      then Recommendation("oil_painting", RichReason, 0.9)
      else Recommendation("pencil", PlainReason, 0.8);
    var all := dark + lively + [palette];
    all[..Min(3, |all|)]
  }

  /** The effects recommended, in order: vintage film for a dark video,
      anime for a lively one, then oil painting for a colourful video and
      pencil for any other; the cut to three never drops one. */
  lemma RecommendShape(brightness: real, motion: real, diversity: real)
    ensures Effects(Recommend(brightness, motion, diversity))
         == (if brightness < 80.0 then ["vintage_film"] else []) + (if motion > 5.0 then ["anime"] else [])
            + [if diversity > 50000.0 then "oil_painting" else "pencil"]
  {
    var es := Effects(Recommend(brightness, motion, diversity));
    var p := if diversity > 50000.0 then "oil_painting" else "pencil";
    if brightness < 80.0 {
      if motion > 5.0 {
        assert es == ["vintage_film", "anime", p];
      } else {
        assert es == ["vintage_film", p];
      }
    } else {
      if motion > 5.0 {
        assert es == ["anime", p];
      } else {
        assert es == [p];
      }
    }
  }

  /** Vintage film is recommended exactly for a dark video, anime exactly
      for a lively one, and exactly one of oil painting (for a colourful
      video) and pencil (for any other). */
  lemma RecommendMembers(brightness: real, motion: real, diversity: real)
    ensures var es := Effects(Recommend(brightness, motion, diversity));
      && ("vintage_film" in es <==> brightness < 80.0)
      && ("anime" in es <==> motion > 5.0)
      && ("oil_painting" in es <==> diversity > 50000.0)
      && ("pencil" in es <==> diversity <= 50000.0)
  {
    RecommendShape(brightness, motion, diversity);
    NamesDiffer();
    ShapeMembers("vintage_film", "anime", "oil_painting", "pencil", brightness < 80.0, motion > 5.0, diversity > 50000.0);
  }

  /** In a list holding `v` when `b`, then `a` when `m`, then `o` when `d`
      and `q` otherwise, of four different names, each name occurs exactly
      when its condition holds. */
  lemma ShapeMembers<T>(v: T, a: T, o: T, q: T, b: bool, m: bool, d: bool)
    requires v != a && v != o && v != q && a != o && a != q && o != q
    ensures var es := (if b then [v] else []) + (if m then [a] else []) + [if d then o else q];
      && (v in es <==> b) && (a in es <==> m) && (o in es <==> d) && (q in es <==> !d)
  {
    var es := (if b then [v] else []) + (if m then [a] else []) + [if d then o else q];
    assert forall x :: x in es <==> (b && x == v) || (m && x == a) || x == (if d then o else q);
  }

  /** Vintage film comes first when recommended, the palette effect last,
      and there is one recommendation per rule that fired. */
  lemma RecommendOrder(brightness: real, motion: real, diversity: real)
    ensures var es := Effects(Recommend(brightness, motion, diversity));
      && (brightness < 80.0 ==> es[0] == "vintage_film")
      && es[|es| - 1] == (if diversity > 50000.0 then "oil_painting" else "pencil")
      && |es| == (if brightness < 80.0 then 1 else 0) + (if motion > 5.0 then 1 else 0) + 1
  {
    RecommendShape(brightness, motion, diversity);
  }

  /** No effect is recommended twice. */
  lemma RecommendDistinct(brightness: real, motion: real, diversity: real)
    ensures var es := Effects(Recommend(brightness, motion, diversity));
      forall k, l | 0 <= k < l < |es| :: es[k] != es[l]
  {
    RecommendShape(brightness, motion, diversity);
    NamesDiffer();
  }

  /** The four effect names are pairwise different. */
  lemma NamesDiffer()
    ensures "vintage_film" != "anime" && "vintage_film" != "oil_painting" && "vintage_film" != "pencil"
    ensures "anime" != "oil_painting" && "anime" != "pencil" && "oil_painting" != "pencil"
  {
    assert "vintage_film"[0] == 'v' && "oil_painting"[0] == 'o';
  }

  // ---------------------------------------------------------------------
  // The content analysis.

  /** The per-frame statistics the analysis takes from numpy and OpenCV:
      the mean grey level, the number of distinct colours, and the optical
      flow between two frames (which may raise, or find no flow). */
  datatype FrameStats = FrameStats(brightness: Frame -> real, colours: Frame -> nat,
                                   flow: (Frame, Frame) -> Outcome<Option<real>>)

  /** `np.linspace(0, total - 1, n, dtype=int)` for `n = min(20, total)`
      (whose negative case raises instead): evenly spread frame indices from
      the first to the last frame, in exact arithmetic. */
  function SampleIndices(total: int): (idx: seq<int>)
    requires 0 <= total
    ensures |idx| == Min(20, total)
  {
    var n := Min(20, total);
    if n == 0 then []
    else if n == 1 then [0]
    else seq(n, k requires 0 <= k < n => Spread(k, n - 1, total - 1))
  }

  /** Every sample is a frame of the video. */
  lemma SampleIndicesRange(total: int)
    requires 0 <= total
    ensures forall k | 0 <= k < |SampleIndices(total)| :: 0 <= SampleIndices(total)[k] < total
  {
    var n := Min(20, total);
    if n > 1 {
      forall k | 0 <= k < n
        ensures 0 <= SampleIndices(total)[k] < total
      {
        SpreadIn(k, n, total);
      }
    }
  }

  lemma SpreadIn(k: nat, n: nat, total: int)
    requires 1 < n == Min(20, total) && k < n
    ensures 0 <= SampleIndices(total)[k] < total
  {
    assert SampleIndices(total)[k] == Spread(k, n - 1, total - 1);
  }

  /** The first and the last frame are both sampled. */
  lemma SampleIndicesEnds(total: int)
    requires 0 < total
    ensures SampleIndices(total)[0] == 0
    ensures SampleIndices(total)[|SampleIndices(total)| - 1] == total - 1
  {
    var n := Min(20, total);
    if n > 1 {
      var m := total - 1;
      assert SampleIndices(total)[0] == Spread(0, n - 1, m);
      assert 0 * m == 0;
      SpreadEnd(n - 1, m);
      assert SampleIndices(total)[n - 1] == Spread(n - 1, n - 1, m);
    }
  }

  /** Sample `k` of `d + 1` spread evenly over `[0, m]`: `k * m div d`. */
  function Spread(k: nat, d: nat, m: nat): (i: nat)
    requires 0 < d && k <= d
    ensures i <= m
  {
    SpreadBound(k, d, m);
    k * m / d
  }

  /** `k * m div d` stays within `[0, m]` for `0 <= k <= d`. */
  lemma SpreadBound(k: nat, d: nat, m: nat)
    requires 0 < d && k <= d
    ensures 0 <= k * m / d <= m
  {
    MulMono(k, d, m);
    assert d * m == m * d;
    DivMonotone(k * m, d * m, d);
    SpreadEnd(d, m);
  }

  lemma SpreadEnd(d: nat, m: nat)
    requires 0 < d
    ensures d * m / d == m
  {
    assert m * d == d * m;
    DivUnique(d * m, d, m);
  }

  /** Short videos are sampled at every frame. */
  lemma SampleEveryFrame(total: int)
    requires 1 < total <= 20
    ensures SampleIndices(total) == seq(total, k requires 0 <= k < total => k)
  {
    forall k | 0 <= k < total
      ensures SampleIndices(total)[k] == k
    {
      assert k * (total - 1) == (total - 1) * k;
      SpreadEnd(total - 1, k);
    }
  }

  /** The lists the loop builds, the previous grey frame, and the error
      that ended it, if any. */
  datatype Samples = Samples(brightness: seq<real>, motion: seq<real>, colours: seq<real>,
                             prev: Option<Frame>, failure: Option<string>)

  /** One sample: `s` is what the capture yields after seeking to the
      index. A failed read skips the sample; the first frame has no motion. */
  function SampleStep(acc: Samples, s: seq<Frame>, stats: FrameStats): Samples {
    if acc.failure.Some? || s == [] then acc
    else
      var f := s[0];
      var b := acc.brightness + [stats.brightness(f)];
      if acc.prev.Some? then
        match stats.flow(acc.prev.value, f)
        case Raised(e) => Samples(b, acc.motion, acc.colours, acc.prev, Some(e))
        case Ok(m) => Samples(b, acc.motion + (if m.Some? then [m.value] else []),
                              acc.colours + [stats.colours(f) as real], Some(f), None)
      else Samples(b, acc.motion, acc.colours + [stats.colours(f) as real], Some(f), None)
  }

  /** The samples of the indices `idx`, in order. */
  function Sampled(src: Capture, idx: seq<int>, stats: FrameStats): Samples
    decreases |idx|
  {
    if idx == [] then Samples([], [], [], None, None)
    else SampleStep(Sampled(src, idx[..|idx| - 1], stats), src.StreamFrom(idx[|idx| - 1]), stats)
  }

  /** Each frame read gives one brightness and one colour count; motion
      needs two frames, so there is at most one motion value fewer than
      frames; there is a previous frame exactly when one was read. */
  lemma {:induction false} SampledCounts(src: Capture, idx: seq<int>, stats: FrameStats)
    ensures var acc := Sampled(src, idx, stats);
      acc.failure.None? ==>
        && |acc.colours| == |acc.brightness| <= |idx|
        && (acc.prev.Some? <==> |acc.brightness| > 0)
        && (|acc.brightness| > 0 ==> |acc.motion| < |acc.brightness|)
        && (|acc.brightness| == 0 ==> acc.motion == [])
    decreases |idx|
  {
    if idx != [] {
      SampledCounts(src, idx[..|idx| - 1], stats);
    }
  }

  function Sum(xs: seq<real>): real {
    if xs == [] then 0.0 else Sum(xs[..|xs| - 1]) + xs[|xs| - 1]
  }

  /** `np.mean` */
  function Mean(xs: seq<real>): real
    requires xs != []
  {
    Sum(xs) / |xs| as real
  }

  /** The mean lies between the least and the greatest value. */
  lemma {:induction false} MeanBounds(xs: seq<real>, lo: real, hi: real)
    requires xs != [] && forall k | 0 <= k < |xs| :: lo <= xs[k] <= hi
    ensures lo <= Mean(xs) <= hi
  {
    SumBounds(xs, lo, hi);
    var n := |xs| as real;
    assert n * lo == lo * n && n * hi == hi * n;
    DivCompare(Sum(xs), n, lo);
    DivAtMost(Sum(xs), n, hi);
  }

  lemma {:induction false} SumBounds(xs: seq<real>, lo: real, hi: real)
    requires forall k | 0 <= k < |xs| :: lo <= xs[k] <= hi
    ensures |xs| as real * lo <= Sum(xs) <= |xs| as real * hi
    decreases |xs|
  {
    if xs != [] {
      SumBounds(xs[..|xs| - 1], lo, hi);
    }
  }

  datatype Analysis = AnalysisError(message: string)
                    | Analysis(brightness: real, motion: real, diversity: real, totalFrames: int,
                               recommendations: seq<Recommendation>)

  /** `analyze_video_content` on the capture `src`. */
  function AnalysisOf(src: Capture, stats: FrameStats): Analysis {
    if !src.isOpen then AnalysisError("Cannot open video")
    else
      var total := src.FrameCount();
      if total < 0 then AnalysisError("Number of samples, " + IntToString(total) + ", must be non-negative.")
      else
        SampledCounts(src, SampleIndices(total), stats);
        Summary(total, Sampled(src, SampleIndices(total), stats))
  }

  /** The result dictionary built from the samples. */
  function Summary(total: int, acc: Samples): Analysis
    requires acc.failure.None? ==> |acc.colours| == |acc.brightness|
  {
    if acc.failure.Some? then AnalysisError(acc.failure.value)
    else if acc.brightness == [] then AnalysisError("No frames analyzed")
    else
      var b := Mean(acc.brightness);
      var m := if acc.motion == [] then 0.0 else Mean(acc.motion);
      var d := Mean(acc.colours);
      Analysis(b, m, d, total, Recommend(b, m, d))
  }

  /** A video that opens and has a readable frame is analysed unless the
      flow raises; its recommendations are those of the averages, one to
      three of them; a single readable frame gives a motion of 0. */
  lemma AnalysisShape(src: Capture, stats: FrameStats)
    ensures var a := AnalysisOf(src, stats);
      && (!src.isOpen ==> a == AnalysisError("Cannot open video"))
      && (a.Analysis? ==>
            && src.isOpen && a.totalFrames == src.frameCount
            && a.recommendations == Recommend(a.brightness, a.motion, a.diversity)
            && 1 <= |a.recommendations| <= 3)
      && (src.isOpen && src.FrameCount() >= 0 ==>
            var acc := Sampled(src, SampleIndices(src.FrameCount()), stats);
            acc.failure.None? && |acc.brightness| == 1 ==> a.Analysis? && a.motion == 0.0)
  {
    if src.isOpen && src.FrameCount() >= 0 {
      SampledCounts(src, SampleIndices(src.FrameCount()), stats);
    }
  }

  /** The loop of `analyze_video_content`. */
  method AnalyzeVideoContent(src: Capture, stats: FrameStats) returns (r: Analysis)
    ensures r == AnalysisOf(src, stats)
  {
    if !src.isOpen {
      return AnalysisError("Cannot open video");
    }
    var total := src.FrameCount();
    if total < 0 {
      return AnalysisError("Number of samples, " + IntToString(total) + ", must be non-negative.");
    }
    var indices := SampleIndices(total);
    var brightness: seq<real> := [];
    var motion: seq<real> := [];
    var colours: seq<real> := [];
    var prev: Option<Frame> := None;
    var frameCount := 0;
    for k := 0 to |indices|
      invariant Sampled(src, indices[..k], stats) == Samples(brightness, motion, colours, prev, None)
    {
      SampledNext(src, indices, stats, k);
      var s := src.StreamFrom(indices[k]);
      if s == [] {
        continue;
      }
      var frame := s[0];
      brightness := brightness + [stats.brightness(frame)];
      if prev.Some? {
        var flow := stats.flow(prev.value, frame);
        if flow.Raised? {
          SampledStopped(src, indices, stats, k + 1);
          return AnalysisError(flow.error);
        }
        if flow.value.Some? {
          motion := motion + [flow.value.value];
        }
      }
      prev := Some(frame);
      colours := colours + [stats.colours(frame) as real];
      frameCount := frameCount + 1;
    }
    assert indices[..|indices|] == indices;
    SampledCounts(src, indices, stats);
    if brightness == [] {
      return AnalysisError("No frames analyzed");
    }
    var avgMotion := if motion == [] then 0.0 else Mean(motion);
    r := Analysis(Mean(brightness), avgMotion, Mean(colours), total, Recommend(Mean(brightness), avgMotion, Mean(colours)));
  }

  lemma SampledNext(src: Capture, idx: seq<int>, stats: FrameStats, k: nat)
    requires k < |idx|
    ensures Sampled(src, idx[..k + 1], stats) == SampleStep(Sampled(src, idx[..k], stats), src.StreamFrom(idx[k]), stats)
  {
    assert idx[..k + 1][..k] == idx[..k];
  }

  /** After the flow raised, later samples change nothing. */
  lemma {:induction false} SampledStopped(src: Capture, idx: seq<int>, stats: FrameStats, k: nat)
    requires k <= |idx| && Sampled(src, idx[..k], stats).failure.Some?
    ensures Sampled(src, idx, stats) == Sampled(src, idx[..k], stats)
    decreases |idx| - k
  {
    if k < |idx| {
      assert idx[..k + 1][..k] == idx[..k];
      SampledStopped(src, idx, stats, k + 1);
    } else {
      assert idx[..k] == idx;
    }
  }

  // ---------------------------------------------------------------------
  // The comparison grid.

  /** The top-left corner of cell `i` of the 2x2 grid, whose cells are half
      the frame in each direction: row `i div 2` and column `i mod 2`, each
      0 or 1, times the cell's height and width. */
  function CellOrigin(i: nat, width: nat, height: nat): (o: (nat, nat))
  {
    (if i / 2 == 0 then 0 else height / 2, if i % 2 == 0 then 0 else width / 2)
  }

  /** Which half (0 or 1) of a side of length `2 * half` the coordinate `x`
      falls in; 2 when it is past both (the odd last row or column). */
  function Half(x: nat, half: nat): (h: nat)
    ensures h <= 2
  {
    if x < half then 0 else if x < 2 * half then 1 else 2
  }

  predicate InCell(r: int, c: int, i: nat, width: nat, height: nat) {
    var o := CellOrigin(i, width, height);
    o.0 <= r < o.0 + height / 2 && o.1 <= c < o.1 + width / 2
  }

  /** The four cells lie inside the frame and no pixel is in two of them. */
  lemma CellsDisjointInside(width: nat, height: nat)
    ensures forall i | 0 <= i < 4 ::
      CellOrigin(i, width, height).0 + height / 2 <= height && CellOrigin(i, width, height).1 + width / 2 <= width
    ensures forall i, j, r, c | 0 <= i < j < 4 && InCell(r, c, i, width, height) :: !InCell(r, c, j, width, height)
  {
  }

  /** The error `AdvancedArtisticEffects.apply_pencil_effect_simple` and
      `apply_cartoon_effect_simple` raise: the class has no such attributes
      (they are module-level functions). */
  function MissingAttribute(name: string): string {
    "type object 'AdvancedArtisticEffects' has no attribute '" + name + "'"
  }

  /** The styled frame of one cell, before it is resized. */
  function CellEffect(f: Frame, effect: string, tk: Toolkit): Outcome<Frame> {
    if effect == "pencil" then Raised(MissingAttribute("apply_pencil_effect_simple"))
    else if effect == "cartoon" then Raised(MissingAttribute("apply_cartoon_effect_simple"))
    else if effect == "oil_painting" then OilPainting(f, 0.5, tk)
    else if effect == "watercolor" then Ok(Watercolor(f, 0.5, tk))
    else Ok(f)
  }

  /** The cell's picture: the styled frame resized to the cell's size; the
      slice assignment into the grid raises unless the shapes agree. */
  function Cell(f: Frame, effect: string, width: nat, height: nat, tk: Toolkit): (r: Outcome<Frame>)
    ensures r.Ok? ==> r.value.height == height / 2 && r.value.width == width / 2
  {
    match CellEffect(f, effect, tk)
    case Raised(e) => Raised(e)
    case Ok(g) =>
      match tk.resize(g, width / 2, height / 2)
      case Raised(e) => Raised(e)
      case Ok(h) =>
        if h.height == height / 2 && h.width == width / 2 then Ok(h)
        else Raised("could not broadcast input array into the cell")
  }

  /** What applying each of `effects` to the frame `f` gives, cell by
      cell. */
  function CellOutcomes(f: Frame, effects: seq<string>, width: nat, height: nat, tk: Toolkit)
    : (outs: seq<Outcome<Frame>>)
    ensures |outs| == |effects| && CellSized(outs, width, height)
    decreases |effects|
  {
    if effects == [] then []
    else CellOutcomes(f, effects[..|effects| - 1], width, height, tk) + [Cell(f, effects[|effects| - 1], width, height, tk)]
  }

  /** Every cell that succeeds has the cell's size. */
  predicate CellSized(outs: seq<Outcome<Frame>>, width: nat, height: nat) {
    forall k | 0 <= k < |outs| :: outs[k].Ok? ==> outs[k].value.height == height / 2 && outs[k].value.width == width / 2
  }

  lemma {:induction false} CellOutcomesAt(f: Frame, effects: seq<string>, width: nat, height: nat, tk: Toolkit, k: nat)
    requires k < |effects|
    ensures CellOutcomes(f, effects, width, height, tk)[k] == Cell(f, effects[k], width, height, tk)
    decreases |effects|
  {
    if k < |effects| - 1 {
      CellOutcomesAt(f, effects[..|effects| - 1], width, height, tk, k);
    }
  }

  /** `outs` are the outcomes of the cells of `effects`. */
  predicate OutcomesOf(f: Frame, effects: seq<string>, width: nat, height: nat, tk: Toolkit, outs: seq<Outcome<Frame>>) {
    && |outs| == |effects|
    && forall k {:trigger Cell(f, effects[k], width, height, tk)} | 0 <= k < |effects| ::
         outs[k] == Cell(f, effects[k], width, height, tk)
  }

  lemma CellOutcomesAre(f: Frame, effects: seq<string>, width: nat, height: nat, tk: Toolkit)
    ensures OutcomesOf(f, effects, width, height, tk, CellOutcomes(f, effects, width, height, tk))
  {
    forall k | 0 <= k < |effects|
      ensures CellOutcomes(f, effects, width, height, tk)[k] == Cell(f, effects[k], width, height, tk)
    {
      CellOutcomesAt(f, effects, width, height, tk, k);
    }
  }

  /** The values of `outs`, in order, up to the first that raised. */
  function Collect<T>(outs: seq<Outcome<T>>): (r: Outcome<seq<T>>)
    ensures r.Ok? ==> |r.value| == |outs| && forall k | 0 <= k < |outs| :: outs[k] == Ok(r.value[k])
  {
    if outs == [] then Ok([])
    else
      match Collect(outs[..|outs| - 1])
      case Raised(e) => Raised(e)
      case Ok(vs) =>
        match outs[|outs| - 1]
        case Raised(e) => Raised(e)
        case Ok(v) => Ok(vs + [v])
  }

  /** Any outcome that raised makes the whole collection raise. */
  lemma {:induction false} CollectRaise<T>(outs: seq<Outcome<T>>, k: nat)
    requires k < |outs| && outs[k].Raised?
    ensures Collect(outs).Raised?
  {
    if k < |outs| - 1 {
      CollectRaise(outs[..|outs| - 1], k);
    }
  }

  /** When every outcome is a value, `Collect` gives them in order. */
  lemma {:induction false} CollectAll<T>(outs: seq<Outcome<T>>, vs: seq<T>)
    requires |vs| == |outs| && forall m | 0 <= m < |outs| :: outs[m] == Ok(vs[m])
    ensures Collect(outs) == Ok(vs)
  {
    if outs != [] {
      var n := |outs| - 1;
      CollectAll(outs[..n], vs[..n]);
      assert vs[..n] + [vs[n]] == vs;
    }
  }

  /** The exception of `Collect` is that of the first outcome that raised. */
  lemma {:induction false} CollectFirstRaise<T>(outs: seq<Outcome<T>>, k: nat)
    requires k < |outs| && outs[k].Raised? && forall m | 0 <= m < k :: outs[m].Ok?
    ensures Collect(outs) == Raised(outs[k].error)
  {
    var n := |outs| - 1;
    if k < n {
      CollectFirstRaise(outs[..n], k);
    } else if n > 0 {
      CollectAllOk(outs[..n]);
    }
  }

  lemma {:induction false} CollectAllOk<T>(outs: seq<Outcome<T>>)
    requires forall m | 0 <= m < |outs| :: outs[m].Ok?
    ensures Collect(outs).Ok?
  {
    if outs != [] {
      CollectAllOk(outs[..|outs| - 1]);
    }
  }

  /** Pixel `(r, c)` of a grid holding `cells`: the pixel of the cell it
      falls in, black outside every placed cell. */
  function GridPixel(cells: seq<Frame>, r: nat, c: nat, width: nat, height: nat): Pixel
    requires forall k | 0 <= k < |cells| :: cells[k].height == height / 2 && cells[k].width == width / 2
  {
    var ch, cw := height / 2, width / 2;
    var row, col := Half(r, ch), Half(c, cw);
    if row < 2 && col < 2 && row * 2 + col < |cells| then
      cells[row * 2 + col].rows[if row == 0 then r else r - ch][if col == 0 then c else c - cw]
    else Black
  }

  /** The grid frame of `cells`. */
  function GridRaster(cells: seq<Frame>, width: nat, height: nat): (g: Frame)
    requires forall k | 0 <= k < |cells| :: cells[k].height == height / 2 && cells[k].width == width / 2
    ensures g.height == height && g.width == width
  {
    Raster(height, width, seq(height, r requires 0 <= r < height => seq(width, c requires 0 <= c < width => GridPixel(cells, r, c, width, height))))
  }

  /** The grid frame for frame `idx` of the first video: black when that
      frame cannot be read (the inner loop breaks before placing a cell),
      else the cells of the first four effects. */
  function GridFrameOf(src: Capture, idx: int, effects: seq<string>, tk: Toolkit): Outcome<Frame> {
    var width, height := src.Width(), src.Height();
    if width < 0 || height < 0 then Raised("negative dimensions are not allowed")
    else
      var s := src.StreamFrom(idx);
      if s == [] then Ok(GridRaster([], width, height))
      else CellsGrid(s[0], effects[..Min(4, |effects|)], width, height, tk)
  }

  /** The grid of the cells of `effects` on the frame `f`, or the first
      cell's exception. */
  function CellsGrid(f: Frame, effects: seq<string>, width: nat, height: nat, tk: Toolkit): Outcome<Frame> {
    OutsGrid(CellOutcomes(f, effects, width, height, tk), width, height)
  }

  /** The grid of the cells `outs`, or the first cell's exception. */
  function OutsGrid(outs: seq<Outcome<Frame>>, width: nat, height: nat): Outcome<Frame>
    requires CellSized(outs, width, height)
  {
    match Collect(outs)
    case Raised(e) => Raised(e)
    case Ok(cs) => Ok(GridRaster(cs, width, height))
  }

  /** `grid_frame[y0:y1, x0:x1] = cell`. */
  method PlaceCell(grid: array2<Pixel>, cell: Frame, y0: nat, x0: nat)
    requires y0 + cell.height <= grid.Length0 && x0 + cell.width <= grid.Length1
    modifies grid
    ensures forall r, c | 0 <= r < grid.Length0 && 0 <= c < grid.Length1 ::
      grid[r, c] == if y0 <= r < y0 + cell.height && x0 <= c < x0 + cell.width then cell.rows[r - y0][c - x0]
                    else old(grid[r, c])
  {
    for i := 0 to cell.height
      invariant forall r, c | 0 <= r < grid.Length0 && 0 <= c < grid.Length1 ::
        grid[r, c] == if y0 <= r < y0 + i && x0 <= c < x0 + cell.width then cell.rows[r - y0][c - x0]
                      else old(grid[r, c])
    {
      for j := 0 to cell.width
        invariant forall r, c | 0 <= r < grid.Length0 && 0 <= c < grid.Length1 ::
          grid[r, c] == if (y0 <= r < y0 + i && x0 <= c < x0 + cell.width) || (r == y0 + i && x0 <= c < x0 + j)
                        then cell.rows[r - y0][c - x0]
                        else old(grid[r, c])
      {
        grid[y0 + i, x0 + j] := cell.rows[i][j];
      }
    }
  }

  /** Placing cell `k` over a grid that holds the cells before it gives the
      grid that holds the first `k + 1` cells. */
  lemma GridPixelStep(cells: seq<Frame>, k: nat, r: nat, c: nat, width: nat, height: nat)
    requires k < |cells| <= 4 && r < height && c < width
    requires forall m | 0 <= m < |cells| :: cells[m].height == height / 2 && cells[m].width == width / 2
    ensures var o := CellOrigin(k, width, height);
      GridPixel(cells[..k + 1], r, c, width, height) ==
        if o.0 <= r < o.0 + height / 2 && o.1 <= c < o.1 + width / 2 then cells[k].rows[r - o.0][c - o.1]
        else GridPixel(cells[..k], r, c, width, height)
  {
  }

  /** One grid frame, built in a zeroed array as the source does. */
  method GridFrame(src: Capture, idx: int, effects: seq<string>, tk: Toolkit) returns (r: Outcome<Frame>)
    ensures r == GridFrameOf(src, idx, effects, tk)
  {
    var width, height := src.Width(), src.Height();
    if width < 0 || height < 0 {
      return Raised("negative dimensions are not allowed");
    }
    var grid := new Pixel[height, width]((r, c) => Black);
    var s := src.StreamFrom(idx);
    if s == [] {
      r := Ok(Snapshot(grid));
      assert r.value == GridRaster([], width, height) by {
        SnapshotOf(grid, [], width, height);
      }
      return;
    }
    var chosen := effects[..Min(4, |effects|)];
    ghost var outs := CellOutcomes(s[0], chosen, width, height, tk);
    CellOutcomesAre(s[0], chosen, width, height, tk);
    r := FillGrid(grid, s[0], chosen, width, height, tk, outs);
  }

  /** The cells of `chosen` on the frame `f`, placed one by one in the
      zeroed `grid`. */
  method FillGrid(grid: array2<Pixel>, f: Frame, chosen: seq<string>, width: nat, height: nat, tk: Toolkit,
                  ghost outs: seq<Outcome<Frame>>)
    returns (r: Outcome<Frame>)
    requires grid.Length0 == height && grid.Length1 == width && |chosen| <= 4
    requires OutcomesOf(f, chosen, width, height, tk, outs) && CellSized(outs, width, height)
    requires forall a, b | 0 <= a < height && 0 <= b < width :: grid[a, b] == Black
    modifies grid
    ensures r == OutsGrid(outs, width, height)
  {
    var cells: seq<Frame> := [];
    for k := 0 to |chosen|
      invariant |cells| == k
      invariant forall m | 0 <= m < k :: outs[m] == Ok(cells[m])
      invariant forall m | 0 <= m < k :: cells[m].height == height / 2 && cells[m].width == width / 2
      invariant forall a, b | 0 <= a < height && 0 <= b < width :: grid[a, b] == GridPixel(cells, a, b, width, height)
    {
      var cell := Cell(f, chosen[k], width, height, tk);
      if cell.Raised? {
        CollectFirstRaise(outs, k);
        return Raised(cell.error);
      }
      cells := AddCell(grid, cells, cell.value, width, height);
    }
    CollectAll(outs, cells);
    r := Ok(Snapshot(grid));
    SnapshotOf(grid, cells, width, height);
  }

  /** Places the next cell at its origin in a grid that holds `cells`. */
  method AddCell(grid: array2<Pixel>, cells: seq<Frame>, cell: Frame, width: nat, height: nat)
    returns (more: seq<Frame>)
    requires grid.Length0 == height && grid.Length1 == width && |cells| < 4
    requires cell.height == height / 2 && cell.width == width / 2
    requires forall m | 0 <= m < |cells| :: cells[m].height == height / 2 && cells[m].width == width / 2
    requires forall a, b | 0 <= a < height && 0 <= b < width :: grid[a, b] == GridPixel(cells, a, b, width, height)
    modifies grid
    ensures more == cells + [cell]
    ensures forall a, b | 0 <= a < height && 0 <= b < width :: grid[a, b] == GridPixel(more, a, b, width, height)
  {
    var k := |cells|;
    var o := CellOrigin(k, width, height);
    CellsDisjointInside(width, height);
    PlaceCell(grid, cell, o.0, o.1);
    more := cells + [cell];
    forall a, b | 0 <= a < height && 0 <= b < width
      ensures grid[a, b] == GridPixel(more, a, b, width, height)
    {
      assert more[..k] == cells && more[..k + 1] == more;
      GridPixelStep(more, k, a, b, width, height);
    }
  }

  /** The grid array as a frame. */
  function Snapshot(grid: array2<Pixel>): (g: Frame)
    reads grid
    ensures g.height == grid.Length0 && g.width == grid.Length1
  {
    Raster(grid.Length0, grid.Length1,
           seq(grid.Length0, r requires 0 <= r < grid.Length0 reads grid =>
             seq(grid.Length1, c requires 0 <= c < grid.Length1 reads grid => grid[r, c])))
  }

  lemma SnapshotOf(grid: array2<Pixel>, cells: seq<Frame>, width: nat, height: nat)
    requires grid.Length0 == height && grid.Length1 == width
    requires forall k | 0 <= k < |cells| :: cells[k].height == height / 2 && cells[k].width == width / 2
    requires forall a, b | 0 <= a < height && 0 <= b < width :: grid[a, b] == GridPixel(cells, a, b, width, height)
    ensures Snapshot(grid) == GridRaster(cells, width, height)
  {
    var g := Snapshot(grid);
    var h := GridRaster(cells, width, height);
    assert forall a | 0 <= a < height :: g.rows[a] == h.rows[a];
  }

  /** The frames of the grid video: the grid frames of frames `0 .. n - 1`,
      up to the first that raises. */
  function GridFrames(src: Capture, effects: seq<string>, tk: Toolkit, n: nat): Encoded<Frame> {
    if n == 0 then Encoded([], None)
    else Step(GridFrames(src, effects, tk, n - 1), GridFrameOf(src, n - 1, effects, tk))
  }

  /** How many frames the grid video is meant to have: `min(total, 300)`. */
  function GridLength(src: Capture): (n: nat)
    ensures n <= 300
  {
    Max(0, Min(src.FrameCount(), 300))
  }

  /** `create_comparison_grid` on the disk `files`, `src` being a capture
      of the first path: whether it returns True, and the disk it leaves. A
      writer that opened leaves the frames it received, also after an
      exception, when the writer object is destroyed. */
  function GridRun(files: map<string, Stored>, paths: seq<string>, src: Capture, output: string,
                   effects: seq<string>, tk: Toolkit): (bool, map<string, Stored>)
  {
    if paths == [] then (false, files)
    else
      var e := GridFrames(src, effects, tk, GridLength(src));
      var left := if tk.writerOpens(Mp4v, output)
        then files[output := Video(src.Width(), src.Height(), e.out, tk.sizeOf(e.out))] else files;
      (e.failure.None?, left)
  }

  method CreateComparisonGrid(paths: seq<string>, src: Capture, output: string, effects: seq<string>,
                              tk: Toolkit, disk: Disk) returns (ok: bool)
    modifies disk
    ensures ok == GridRun(old(disk.files), paths, src, output, effects, tk).0
    ensures disk.files == GridRun(old(disk.files), paths, src, output, effects, tk).1
  {
    if paths == [] {
      return false;
    }
    var writerOpen := tk.writerOpens(Mp4v, output);
    var n := GridLength(src);
    var frames: seq<Frame> := [];
    var failure: Option<string> := None;
    var k := 0;
    while k < n
      invariant k <= n && disk.files == old(disk.files)
      invariant failure.None? ==> GridFrames(src, effects, tk, k) == Encoded(frames, None)
      invariant failure.Some? ==> GridFrames(src, effects, tk, n) == Encoded(frames, failure)
      decreases n - k, if failure.None? then 1 else 0
    {
      var g := GridFrame(src, k, effects, tk);
      if g.Raised? {
        failure := Some(g.error);
        GridFramesSticky(src, effects, tk, k + 1, n);
        break;
      }
      frames := frames + [g.value];
      k := k + 1;
    }
    if writerOpen {
      disk.Write(output, Video(src.Width(), src.Height(), frames, tk.sizeOf(frames)));
    }
    ok := failure.None?;
  }

  lemma {:induction false} GridFramesSticky(src: Capture, effects: seq<string>, tk: Toolkit, k: nat, n: nat)
    requires k <= n && GridFrames(src, effects, tk, k).failure.Some?
    ensures GridFrames(src, effects, tk, n) == GridFrames(src, effects, tk, k)
    decreases n - k
  {
    if k < n {
      GridFramesSticky(src, effects, tk, k, n - 1);
    }
  }

  /** With the default effects ['original', 'pencil', 'cartoon',
      'oil_painting'] the grid of a video whose first frame can be read
      is never finished: the pencil cell raises, so the function returns
      False. */
  lemma DefaultGridFails(files: map<string, Stored>, paths: seq<string>, src: Capture, output: string, tk: Toolkit)
    requires paths != [] && src.isOpen && 0 < src.frameCount && src.frames != []
    requires 0 <= src.width && 0 <= src.height
    ensures !GridRun(files, paths, src, output, ["original", "pencil", "cartoon", "oil_painting"], tk).0
  {
    var effects := ["original", "pencil", "cartoon", "oil_painting"];
    var f := src.StreamFrom(0)[0];
    assert effects[..Min(4, |effects|)] == effects;
    CellOutcomesAt(f, effects, src.width, src.height, tk, 1);
    CollectRaise(CellOutcomes(f, effects, src.width, src.height, tk), 1);
    assert GridFrameOf(src, 0, effects, tk).Raised?;
    assert GridFrames(src, effects, tk, 1).failure.Some?;
    GridFramesSticky(src, effects, tk, 1, GridLength(src));
  }

  /** The grid video has at most `min(total, 300)` frames, each the size
      of the source; an empty path list returns False and changes nothing. */
  lemma GridRunShape(files: map<string, Stored>, paths: seq<string>, src: Capture, output: string,
                     effects: seq<string>, tk: Toolkit)
    ensures paths == [] ==> GridRun(files, paths, src, output, effects, tk) == (false, files)
    ensures |GridFrames(src, effects, tk, GridLength(src)).out| <= GridLength(src) <= 300
  {
    GridFramesLength(src, effects, tk, GridLength(src));
  }

  lemma {:induction false} GridFramesLength(src: Capture, effects: seq<string>, tk: Toolkit, n: nat)
    ensures |GridFrames(src, effects, tk, n).out| <= n
    ensures GridFrames(src, effects, tk, n).failure.None? ==> |GridFrames(src, effects, tk, n).out| == n
  {
    if n > 0 {
      GridFramesLength(src, effects, tk, n - 1);
    }
  }
}
