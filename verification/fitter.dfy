/**
 * The `Fitter` base class: ordered parameter ranges, the uniform prior,
 * and the seeding of the walker ensemble.
 */
module BaseFitter {
  import opened Outcomes
  import opened Floats

  /** The `(lo, hi)` pair stored for one parameter. */
  datatype Range = Range(lo: real, hi: real)

  /** The run settings a fitter stores and `__call__` falls back to. */
  datatype Settings = Settings(nWalkers: nat, nThreads: nat, nBurnin: nat, nSteps: nat)

  /**
   * The state of a `Fitter`. `ranges` lists the parameters in the key order
   * of the ranges dictionary, which fixes the dimension order everywhere;
   * `pos0` holds one row per walker.
   */
  datatype Fitter = Fitter(settings: Settings, ranges: seq<Range>, priors: string, pos0: seq<seq<real>>)

  /** The one prior family the fitter implements. */
  const Uniform: string := "uniform"

  const DefaultWalkers: nat := 100
  const DefaultThreads: nat := 1
  const DefaultBurnin: nat := 0
  const DefaultSteps: nat := 1000

  /** The construction keywords `walkers`, `threads`, `burnin` and `steps`, each possibly absent. */
  datatype Keywords = Keywords(walkers: Option<nat>, threads: Option<nat>, burnin: Option<nat>, steps: Option<nat>)

  /** A random source of unit draws in `[0, 1)`, one per index. */
  ghost predicate UnitStream(draw: nat -> real) {
    forall k :: 0.0 <= draw(k) < 1.0
  }

  /** Where `np.random.uniform(lo, hi)` can land: `[lo, hi)`, or `(hi, lo]` when the bounds are swapped. */
  predicate InDrawRange(r: Range, x: real) {
    if r.lo < r.hi then r.lo <= x < r.hi
    else if r.lo == r.hi then x == r.lo
    else r.hi < x <= r.lo
  }

  lemma ShrinkPositive(d: real, u: real)
    requires 0.0 < d && 0.0 <= u < 1.0
    ensures 0.0 <= d * u < d
  {
    assert d * u < d * 1.0;
  }

  lemma ShrinkNegative(d: real, u: real)
    requires d < 0.0 && 0.0 <= u < 1.0
    ensures d < d * u <= 0.0
  {
    assert d * 1.0 < d * u;
  }

  /** A unit draw stretched over a width stays between zero (included) and the width (excluded). */
  lemma ScaleBounds(d: real, u: real)
    requires 0.0 <= u < 1.0
    ensures 0.0 < d ==> 0.0 <= Mul(d, u) < d
    ensures d == 0.0 ==> Mul(d, u) == 0.0
    ensures d < 0.0 ==> d < Mul(d, u) <= 0.0
  {
    if 0.0 < d {
      ShrinkPositive(d, u);
    } else if d < 0.0 {
      ShrinkNegative(d, u);
    }
  }

  /** `np.random.uniform(low=lo, high=hi)` fed the unit draw `u`: `lo + (hi - lo) * u`. */
  function UniformDraw(lo: real, hi: real, u: real): (x: real)
    requires 0.0 <= u < 1.0
    ensures InDrawRange(Range(lo, hi), x)
  {
    ScaleBounds(hi - lo, u);
    lo + Mul(hi - lo, u)
  }

  /** `row` is walker row number `w` of a matrix seeded from `draw` over `ranges`. */
  ghost predicate RowDrawn(row: seq<real>, ranges: seq<Range>, draw: nat -> real, w: nat)
    requires UnitStream(draw)
  {
    && |row| == |ranges|
    && forall p :: 0 <= p < |row| ==> row[p] == UniformDraw(ranges[p].lo, ranges[p].hi, draw(w * |ranges| + p))
  }

  /** A `nWalkers x |ranges|` matrix whose every entry lies in its column's range. */
  ghost predicate IsWalkerMatrix(m: seq<seq<real>>, nWalkers: nat, ranges: seq<Range>) {
    && |m| == nWalkers
    && forall w :: 0 <= w < |m| ==>
         && |m[w]| == |ranges|
         && forall p :: 0 <= p < |ranges| ==> InDrawRange(ranges[p], m[w][p])
  }

  /**
   * `_initial_parameters`: for the uniform prior, a fresh matrix of walker
   * positions drawn row by row, column by column, from each column's range;
   * any other prior raises.
   */
  method InitialParameters(priors: string, ranges: seq<Range>, nWalkers: nat, draw: nat -> real)
    returns (r: Result<seq<seq<real>>>)
    requires UnitStream(draw)
    ensures r.Err? <==> priors != Uniform
    ensures r.Err? ==> r.error == UnsupportedPrior
    ensures r.Ok? ==> IsWalkerMatrix(r.value, nWalkers, ranges)
    ensures r.Ok? ==> forall w :: 0 <= w < |r.value| ==> RowDrawn(r.value[w], ranges, draw, w)
  {
    if priors != Uniform {
      return Err(UnsupportedPrior);
    }
    var nDim := |ranges|;
    var pos0: seq<seq<real>> := [];
    var w := 0;
    while w < nWalkers
      invariant 0 <= w <= nWalkers
      invariant |pos0| == w
      invariant forall i :: 0 <= i < w ==> RowDrawn(pos0[i], ranges, draw, i)
      invariant IsWalkerMatrix(pos0, w, ranges)
    {
      var row: seq<real> := [];
      var p := 0;
      while p < nDim
        invariant 0 <= p <= nDim
        invariant |row| == p
        invariant forall j :: 0 <= j < p ==> row[j] == UniformDraw(ranges[j].lo, ranges[j].hi, draw(w * nDim + j))
        invariant forall j :: 0 <= j < p ==> InDrawRange(ranges[j], row[j])
      {
        row := row + [UniformDraw(ranges[p].lo, ranges[p].hi, draw(w * nDim + p))];
        p := p + 1;
      }
      pos0 := pos0 + [row];
      w := w + 1;
    }
    return Ok(pos0);
  }

  /** The stored walker matrix has one in-range row per stored walker. */
  ghost predicate Valid(f: Fitter) {
    IsWalkerMatrix(f.pos0, f.settings.nWalkers, f.ranges)
  }

  /** `theta` lies strictly inside the range of every parameter it is paired with by `zip`. */
  predicate InsideAll(theta: seq<real>, ranges: seq<Range>) {
    forall i :: 0 <= i < |theta| && i < |ranges| ==> ranges[i].lo < theta[i] < ranges[i].hi
  }

  /**
   * `_uniform_prior`: walks `zip(theta, ranges)` and answers `-inf` at the first
   * component not strictly inside its range, `0.0` when there is none.
   */
  function UniformPrior(theta: seq<real>, ranges: seq<Range>): (r: LogP)
    ensures r == Fin(0.0) || r == NegInf
    ensures r == Fin(0.0) <==> InsideAll(theta, ranges)
  {
    if |theta| == 0 || |ranges| == 0 then Fin(0.0)
    else if !(ranges[0].lo < theta[0] < ranges[0].hi) then NegInf
    else
      var rest := UniformPrior(theta[1..], ranges[1..]);
      assert InsideAll(theta[1..], ranges[1..]) ==> InsideAll(theta, ranges) by {
        if InsideAll(theta[1..], ranges[1..]) {
          forall i | 0 <= i < |theta| && i < |ranges|
            ensures ranges[i].lo < theta[i] < ranges[i].hi
          {
            if i > 0 {
              assert theta[1..][i - 1] == theta[i];
              assert ranges[1..][i - 1] == ranges[i];
            }
          }
        }
      }
      rest
  }

  /** `_prior_choice`: the uniform prior, or an exception for any other family. */
  function PriorChoice(priors: string, theta: seq<real>, ranges: seq<Range>): (r: Result<LogP>)
    ensures r.Err? <==> priors != Uniform
    ensures r.Err? ==> r.error == UnsupportedPrior
    ensures r.Ok? ==> (r.value == Fin(0.0) <==> InsideAll(theta, ranges))
    ensures r.Ok? ==> (r.value == NegInf <==> !InsideAll(theta, ranges))
  {
    if priors == Uniform then Ok(UniformPrior(theta, ranges)) else Err(UnsupportedPrior)
  }

  /**
   * Keyword resolution as `__init__` is written: the `threads` lookup names an
   * undefined variable, so supplying `threads` raises instead of storing it.
   */
  function ResolveKeywordsAsWritten(kw: Keywords): (r: Result<Settings>)
    ensures r.Err? <==> kw.threads.Some?
    ensures r.Ok? ==> r.value == ResolveKeywords(kw)
  {
    if kw.threads.Some? then Err(UndefinedName)
    else Ok(ResolveKeywords(kw))
  }

  /** Keyword resolution as intended: each supplied keyword, else its default. */
  function ResolveKeywords(kw: Keywords): Settings {
    Settings(Supplied(kw.walkers, DefaultWalkers), Supplied(kw.threads, DefaultThreads),
             Supplied(kw.burnin, DefaultBurnin), Supplied(kw.steps, DefaultSteps))
  }

  /** Supplying `threads` to the constructor raises under the code as written, and is stored once corrected. */
  lemma ThreadsKeywordRaises()
    ensures ResolveKeywordsAsWritten(Keywords(None, Some(4), None, None)) == Err(UndefinedName)
    ensures ResolveKeywords(Keywords(None, Some(4), None, None)).nThreads == 4
  {
  }

  /** Every keyword the caller supplies is stored; every one left out takes its documented default. */
  lemma ResolveKeywordsDefaults(kw: Keywords)
    ensures ResolveKeywords(kw).nWalkers == (if kw.walkers.Some? then kw.walkers.value else 100)
    ensures ResolveKeywords(kw).nThreads == (if kw.threads.Some? then kw.threads.value else 1)
    ensures ResolveKeywords(kw).nBurnin == (if kw.burnin.Some? then kw.burnin.value else 0)
    ensures ResolveKeywords(kw).nSteps == (if kw.steps.Some? then kw.steps.value else 1000)
  {
  }

  /**
   * `Fitter.__init__` (with the keyword lookup corrected): store the settings,
   * ranges and prior name, then seed the walkers, which raises for a prior
   * other than "uniform".
   */
  method NewFitter(ranges: seq<Range>, priors: string, kw: Keywords, draw: nat -> real)
    returns (r: Result<Fitter>)
    requires UnitStream(draw)
    ensures r.Err? <==> priors != Uniform
    ensures r.Err? ==> r.error == UnsupportedPrior
    ensures r.Ok? ==> r.value.settings == ResolveKeywords(kw)
    ensures r.Ok? ==> r.value.ranges == ranges && r.value.priors == priors
    ensures r.Ok? ==> Valid(r.value)
  {
    var settings := ResolveKeywords(kw);
    var pos0 := InitialParameters(priors, ranges, settings.nWalkers, draw);
    if pos0.Err? {
      return Err(pos0.error);
    }
    return Ok(Fitter(settings, ranges, priors, pos0.value));
  }
}
