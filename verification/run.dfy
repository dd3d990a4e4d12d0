/**
 * `EmceeChi2Fitter.__call__`: resolve the run arguments against the stored
 * settings, drive the external ensemble sampler, and post-process the chain
 * it accumulated.
 */
module Run {
  import opened Outcomes
  import opened BaseFitter
  import opened Chi2
  import opened ChainFilter

  /** How the sampler is constructed: walker count, dimension and thread count. */
  datatype SamplerSetup = SamplerSetup(walkers: nat, dim: nat, threads: nat)

  /**
   * The sampler operations `__call__` issues: advance from the seeded
   * positions, clear the accumulated chain, advance from the positions and
   * random state the previous advance ended in.
   */
  datatype SamplerCall = RunFromSeed(steps: nat) | Reset | RunFromLast(steps: nat)

  /** Steps per walker the chain holds after `calls`: a reset empties it, an advance appends. */
  function RecordedSteps(calls: seq<SamplerCall>): nat {
    if |calls| == 0 then 0
    else match calls[|calls| - 1]
      case Reset => 0
      case RunFromSeed(n) => RecordedSteps(calls[..|calls| - 1]) + n
      case RunFromLast(n) => RecordedSteps(calls[..|calls| - 1]) + n
  }

  /** Steps per walker the sampler advances over all of `calls`, kept or not. */
  function AdvancedSteps(calls: seq<SamplerCall>): nat {
    if |calls| == 0 then 0
    else match calls[0]
      case Reset => AdvancedSteps(calls[1..])
      case RunFromSeed(n) => n + AdvancedSteps(calls[1..])
      case RunFromLast(n) => n + AdvancedSteps(calls[1..])
  }

  /**
   * The sampler protocol of EmceeFitter.py:110-121: with a non-zero burn-in, advance `nb` steps, reset,
   * and continue `ns` steps from where the burn-in ended; otherwise advance
   * `ns` steps from the seeded positions.
   */
  function Protocol(nb: nat, ns: nat): (calls: seq<SamplerCall>)
    ensures RecordedSteps(calls) == ns
    ensures AdvancedSteps(calls) == nb + ns
    ensures Reset in calls <==> nb != 0
    ensures |calls| > 0 && calls[0] == RunFromSeed(if nb != 0 then nb else ns)
    ensures forall i :: 0 < i < |calls| ==> !calls[i].RunFromSeed?
  {
    if nb != 0 then
      var calls := [RunFromSeed(nb), Reset, RunFromLast(ns)];
      assert calls[1..] == [Reset, RunFromLast(ns)];
      assert [Reset, RunFromLast(ns)][1..] == [RunFromLast(ns)];
      assert [RunFromLast(ns)][1..] == [];
      assert AdvancedSteps([RunFromLast(ns)]) == ns;
      assert calls[..2][..1] == [RunFromSeed(nb)];
      calls
    else [RunFromSeed(ns)]
  }

  /** The fitter state after argument resolution and the arguments the run uses. */
  datatype Resolved = Resolved(state: Fitter, args: Settings)

  /**
   * Argument resolution, EmceeFitter.py:94-105: each absent argument falls back to its stored setting;
   * a supplied walker count is stored and re-seeds the walkers, even when it
   * equals the stored one.
   */
  method ResolveRun(f: Fitter, nw: Option<nat>, nt: Option<nat>, nb: Option<nat>, ns: Option<nat>, draw: nat -> real)
    returns (r: Result<Resolved>)
    requires UnitStream(draw)
    ensures r.Err? <==> nw.Some? && f.priors != Uniform
    ensures r.Err? ==> r.error == UnsupportedPrior
    ensures r.Ok? ==> r.value.args.nWalkers == (if nw.Some? then nw.value else f.settings.nWalkers)
    ensures r.Ok? ==> r.value.args.nThreads == (if nt.Some? then nt.value else f.settings.nThreads)
    ensures r.Ok? ==> r.value.args.nBurnin == (if nb.Some? then nb.value else f.settings.nBurnin)
    ensures r.Ok? ==> r.value.args.nSteps == (if ns.Some? then ns.value else f.settings.nSteps)
    ensures r.Ok? && nw.None? ==> r.value.state == f
    ensures r.Ok? && nw.Some? ==> r.value.state.settings == f.settings.(nWalkers := nw.value)
    ensures r.Ok? && nw.Some? ==> r.value.state.ranges == f.ranges && r.value.state.priors == f.priors
    ensures r.Ok? && nw.Some? ==> IsWalkerMatrix(r.value.state.pos0, nw.value, f.ranges)
    ensures r.Ok? && nw.Some? ==> forall w :: 0 <= w < |r.value.state.pos0| ==> RowDrawn(r.value.state.pos0[w], f.ranges, draw, w)
    ensures r.Ok? && Valid(f) ==> Valid(r.value.state)
  {
    var state := f;
    var walkers := f.settings.nWalkers;
    if nw.Some? {
      walkers := nw.value;
      var pos0 := InitialParameters(f.priors, f.ranges, walkers, draw);
      if pos0.Err? {
        return Err(pos0.error);
      }
      state := f.(settings := f.settings.(nWalkers := walkers), pos0 := pos0.value);
    }
    var args := Settings(walkers, Supplied(nt, f.settings.nThreads), Supplied(nb, f.settings.nBurnin), Supplied(ns, f.settings.nSteps));
    return Ok(Resolved(state, args));
  }

  /** Everything one call produces: the updated fitter, how the sampler was driven, and the fit. */
  datatype CallOutcome = CallOutcome(state: Fitter, setup: SamplerSetup, calls: seq<SamplerCall>, fit: FitResult)

  /**
   * `__call__` end to end. The sampler is outside the model: `chain` is the
   * flattened chain it accumulated under `calls`. A prior family other than
   * "uniform" raises, when re-seeding or at the sampler's first `lnProb`.
   */
  method Call(f: EmceeChi2Fitter, nw: Option<nat>, nt: Option<nat>, nb: Option<nat>, ns: Option<nat>,
              draw: nat -> real, chain: seq<Sample>)
    returns (r: Result<CallOutcome>)
    requires UnitStream(draw)
    ensures f.base.priors != Uniform ==> r.Err? && r.error == UnsupportedPrior
    ensures f.base.priors == Uniform ==> (r.Err? <==> Filter(chain) == [])
    ensures r.Ok? ==> r.value.setup.dim == |f.base.ranges|
    ensures r.Ok? ==> r.value.setup.walkers == r.value.state.settings.nWalkers
    ensures r.Ok? ==> r.value.setup.walkers == (if nw.Some? then nw.value else f.base.settings.nWalkers)
    ensures r.Ok? && Valid(f.base) ==> Valid(r.value.state)
    ensures r.Ok? ==> r.value.setup.threads == (if nt.Some? then nt.value else f.base.settings.nThreads)
    ensures r.Ok? ==> RecordedSteps(r.value.calls) == (if ns.Some? then ns.value else f.base.settings.nSteps)
    ensures r.Ok? ==> (Reset in r.value.calls <==> (if nb.Some? then nb.value else f.base.settings.nBurnin) != 0)
    ensures r.Ok? && nw.None? ==> r.value.state == f.base
    ensures r.Ok? && nw.Some? ==> r.value.state.settings == f.base.settings.(nWalkers := nw.value)
    ensures r.Ok? && nw.Some? ==> r.value.state.ranges == f.base.ranges && r.value.state.priors == f.base.priors
    ensures r.Ok? && nw.Some? ==> IsWalkerMatrix(r.value.state.pos0, nw.value, f.base.ranges)
    ensures r.Ok? && nw.Some? ==> forall w :: 0 <= w < |r.value.state.pos0| ==> RowDrawn(r.value.state.pos0[w], f.base.ranges, draw, w)
    ensures r.Ok? ==> r.value.calls == Protocol(Supplied(nb, f.base.settings.nBurnin), Supplied(ns, f.base.settings.nSteps))
    ensures r.Ok? ==> Kept(r.value.fit.samples, r.value.fit.lnprobs) == Columns(Filter(chain))
    ensures r.Ok? ==> exists k: nat :: k < |r.value.fit.samples| && IsFirstMax(r.value.fit.lnprobs, k) && r.value.fit.best == r.value.fit.samples[k]
  {
    var resolved := ResolveRun(f.base, nw, nt, nb, ns, draw);
    if resolved.Err? {
      return Err(resolved.error);
    }
    if f.base.priors != Uniform {
      // the sampler's first call of lnProb raises
      return Err(UnsupportedPrior);
    }
    var state := resolved.value.state;
    var args := resolved.value.args;
    var setup := SamplerSetup(args.nWalkers, |state.ranges|, args.nThreads);
    var calls := Protocol(args.nBurnin, args.nSteps);
    var fit := PostProcess(chain);
    if fit.Err? {
      return Err(fit.error);
    }
    return Ok(CallOutcome(state, setup, calls, fit.value));
  }

  /** The sampler's chain records, for every position, the `lnProb` the fitter gives it. */
  predicate ChainOf(f: EmceeChi2Fitter, chain: seq<Sample>)
    requires f.base.priors == Uniform
  {
    forall i :: 0 <= i < |chain| ==> chain[i].lnp == LnProb(f, chain[i].theta).value
  }

  /** Every sample kept from such a chain lies strictly inside the prior ranges and had a successful likelihood. */
  lemma {:induction false} KeptSamplesAccepted(f: EmceeChi2Fitter, chain: seq<Sample>)
    requires f.base.priors == Uniform
    requires ChainOf(f, chain)
    ensures forall k :: 0 <= k < |Filter(chain)| ==>
              InsideAll(Filter(chain)[k].theta, f.base.ranges) && Evaluate(f, Filter(chain)[k].theta).Value?
  {
    forall k | 0 <= k < |Filter(chain)|
      ensures InsideAll(Filter(chain)[k].theta, f.base.ranges) && Evaluate(f, Filter(chain)[k].theta).Value?
    {
      var s := Filter(chain)[k];
      FilterKeepsExactlyUsable(chain, s);
      assert s in multiset(Filter(chain));
      assert s in chain;
      LnProbAboveSentinel(f, s.theta);
    }
  }
}
