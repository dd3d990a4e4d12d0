/**
 * `EmceeChi2Fitter`: the chi-squared log-likelihood of a user model against
 * observations, and the log-posterior the sampler explores.
 */
module Chi2 {
  import opened Outcomes
  import opened Floats
  import opened BaseFitter

  /** The user's model: `func(xobs, *theta)`, giving one prediction per point or `None` when it raises. */
  type Model = (seq<real>, seq<real>) -> Option<seq<real>>

  /** A fitter bound to a model and its observations; `errs` is `None` when no errors were given. */
  datatype EmceeChi2Fitter = EmceeChi2Fitter(
    base: Fitter, func: Model, xobs: seq<real>, yobs: seq<real>, errs: Option<seq<real>>)

  /** How one likelihood evaluation ends: a finite value, an exception, or an infinity or NaN. */
  datatype Evaluation = Value(ll: real) | Raised | NonFinite

  /** `x**2`: never negative, and zero exactly at zero. */
  function Square(x: real): (r: real)
    ensures 0.0 <= r
    ensures r == 0.0 <==> x == 0.0
  {
    if x == 0.0 then 0.0 else MulSameSign(x, x); Mul(x, x)
  }

  /** The divisors of the chi terms: `errs**2` when errors are given, the model's own prediction otherwise. */
  function Weights(errs: Option<seq<real>>, tmod: seq<real>): (w: seq<real>)
    ensures errs.Some? ==> |w| == |errs.value|
    ensures errs.Some? ==> forall i :: 0 <= i < |w| ==> 0.0 <= w[i] && (w[i] == 0.0 <==> errs.value[i] == 0.0)
  {
    match errs
    case None => tmod
    case Some(e) => seq(|e|, i requires 0 <= i < |e| => Square(e[i]))
  }

  /** No divisor is zero, so no chi term is an infinity or a NaN. */
  predicate NonZero(w: seq<real>) {
    forall i :: 0 <= i < |w| ==> w[i] != 0.0
  }

  /** The array `chi = (tobs - tmod)**2 / w`, element by element. */
  function ChiTerms(y: seq<real>, m: seq<real>, w: seq<real>): (chi: seq<real>)
    requires |m| == |y| && |w| == |y| && NonZero(w)
    ensures |chi| == |y|
    ensures forall i :: 0 <= i < |y| && 0.0 < w[i] ==> 0.0 <= chi[i]
    ensures forall i :: 0 <= i < |y| && y[i] == m[i] ==> chi[i] == 0.0
  {
    seq(|y|, i requires 0 <= i < |y| => Square(y[i] - m[i]) / w[i])
  }

  /** Python's `sum`, adding the terms from the left. */
  function Sum(xs: seq<real>): real {
    if |xs| == 0 then 0.0 else Sum(xs[..|xs| - 1]) + xs[|xs| - 1]
  }

  /** A sum of non-negative terms is non-negative. */
  lemma {:induction false} SumNonNegative(xs: seq<real>)
    requires forall i :: 0 <= i < |xs| ==> 0.0 <= xs[i]
    ensures 0.0 <= Sum(xs)
  {
    if |xs| > 0 {
      SumNonNegative(xs[..|xs| - 1]);
    }
  }

  /**
   * The body of `lnLike` before its failures are absorbed: a raising model or
   * observation arrays that do not line up raise; a zero divisor or a sum
   * `sum(chi)` that overflows is non-finite; otherwise `-sum(chi) / 2`.
   */
  function Evaluate(f: EmceeChi2Fitter, theta: seq<real>): (e: Evaluation)
    ensures f.func(f.xobs, theta).None? ==> e == Raised
    ensures e.Value? ==> IsFinite(e.ll)
    ensures e.Value? ==> IsFinite(2.0 * e.ll)
    ensures e.Value? ==> |f.func(f.xobs, theta).value| == |f.yobs|
    ensures e.Value? && f.errs.Some? ==> |f.errs.value| == |f.yobs|
    ensures e.Value? && f.errs.None? ==> NonZero(f.func(f.xobs, theta).value)
    ensures e.Value? && f.errs.Some? ==> NonZero(f.errs.value)
  {
    match f.func(f.xobs, theta)
    case None => Raised
    case Some(tmod) =>
      var w := Weights(f.errs, tmod);
      if |tmod| != |f.yobs| || |w| != |f.yobs| then Raised
      else if !NonZero(w) then NonFinite
      else
        var chi2 := Sum(ChiTerms(f.yobs, tmod, w));
        if IsFinite(chi2) then Value(-chi2 / 2.0) else NonFinite
  }

  /**
   * `lnLike`: the chi-squared log-likelihood, with every exception and every
   * non-finite result replaced by `-float_info.max`.
   */
  function LnLike(f: EmceeChi2Fitter, theta: seq<real>): (r: real)
    ensures IsFinite(r)
    ensures f.func(f.xobs, theta).None? ==> r == Sentinel
    ensures !Evaluate(f, theta).Value? ==> r == Sentinel
    ensures r != Sentinel ==> Evaluate(f, theta) == Value(r)
    ensures Evaluate(f, theta).Value? ==> r == Evaluate(f, theta).ll
  {
    match Evaluate(f, theta)
    case Value(ll) => ll
    case Raised => Sentinel
    case NonFinite => Sentinel
  }

  /** Whenever the model answers with predictions that line up with the observations, the likelihood is their chi-squared sum halved and negated, or the sentinel when that sum is not a finite double. */
  lemma {:induction false} LnLikeOfPredictions(f: EmceeChi2Fitter, theta: seq<real>, tmod: seq<real>)
    requires f.func(f.xobs, theta) == Some(tmod)
    requires |tmod| == |f.yobs|
    requires f.errs.Some? ==> |f.errs.value| == |f.yobs|
    requires NonZero(Weights(f.errs, tmod))
    ensures var chi2 := Sum(ChiTerms(f.yobs, tmod, Weights(f.errs, tmod)));
            LnLike(f, theta) == if IsFinite(chi2) then -chi2 / 2.0 else Sentinel
  {
  }

  /** A sum of zero terms is zero. */
  lemma {:induction false} SumZero(xs: seq<real>)
    requires forall i :: 0 <= i < |xs| ==> xs[i] == 0.0
    ensures Sum(xs) == 0.0
  {
    if |xs| > 0 {
      SumZero(xs[..|xs| - 1]);
    }
  }

  /**
   * A model that reproduces every observation exactly, with no zero error,
   * reaches the best log-likelihood there is: exactly `0.0`.
   */
  lemma {:induction false} LnLikePerfectFit(f: EmceeChi2Fitter, theta: seq<real>)
    requires f.func(f.xobs, theta) == Some(f.yobs)
    requires f.errs.Some? ==> |f.errs.value| == |f.yobs| && NonZero(f.errs.value)
    requires f.errs.None? ==> NonZero(f.yobs)
    ensures LnLike(f, theta) == 0.0
  {
    var w := Weights(f.errs, f.yobs);
    assert NonZero(w);
    var chi := ChiTerms(f.yobs, f.yobs, w);
    SumZero(chi);
  }

  /**
   * With errors supplied every divisor is a square, so every chi term of a
   * successful evaluation is non-negative and the likelihood never exceeds
   * zero; a zero error only sends it to the sentinel.
   */
  lemma {:induction false} LnLikeNonPositiveWithErrors(f: EmceeChi2Fitter, theta: seq<real>)
    requires f.errs.Some?
    ensures LnLike(f, theta) <= 0.0
  {
    match f.func(f.xobs, theta)
    case None =>
    case Some(tmod) =>
      var w := Weights(f.errs, tmod);
      if |tmod| == |f.yobs| && |w| == |f.yobs| && NonZero(w) {
        var chi := ChiTerms(f.yobs, tmod, w);
        assert forall i :: 0 <= i < |chi| ==> 0.0 < w[i];
        SumNonNegative(chi);
      }
  }

  /**
   * `lnProb`: `-inf` as soon as the prior rejects `theta`, otherwise the prior
   * (`0.0`) plus the likelihood; a prior family other than "uniform" raises.
   */
  function LnProb(f: EmceeChi2Fitter, theta: seq<real>): (r: Result<LogP>)
    ensures r.Err? <==> f.base.priors != Uniform
    ensures r.Ok? && !InsideAll(theta, f.base.ranges) ==> r.value == NegInf
    ensures r.Ok? && InsideAll(theta, f.base.ranges) ==> r.value == Fin(0.0 + LnLike(f, theta))
  {
    match PriorChoice(f.base.priors, theta, f.base.ranges)
    case Err(e) => Err(e)
    case Ok(prior) =>
      if !prior.Fin? then Ok(NegInf)
      else Ok(Fin(prior.v + LnLike(f, theta)))
  }

  /** A rejected `theta` never reaches the model: swapping in any other model leaves `lnProb` unchanged. */
  lemma LnProbIgnoresModelWhenRejected(f: EmceeChi2Fitter, g: Model, theta: seq<real>)
    requires !InsideAll(theta, f.base.ranges)
    ensures LnProb(f, theta) == LnProb(f.(func := g), theta)
  {
  }

  /** A posterior survives the chain filter exactly when the prior accepts and the likelihood did not fail. */
  lemma LnProbAboveSentinel(f: EmceeChi2Fitter, theta: seq<real>)
    requires f.base.priors == Uniform
    ensures LnProb(f, theta).value.Above(Sentinel) <==>
            InsideAll(theta, f.base.ranges) && Evaluate(f, theta).Value?
  {
  }
}
