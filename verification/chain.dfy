/**
 * Post-processing of the sampler's flattened chain in `__call__`: drop the
 * failed and rejected samples, then pick the first sample of highest
 * log-probability.
 */
module ChainFilter {
  import opened Outcomes
  import opened Floats

  /** One entry of the flattened chain: a visited position and its log-probability. */
  datatype Sample = Sample(theta: seq<real>, lnp: LogP)

  /** The chain after filtering: positions and log-probabilities, index by index. */
  datatype Kept = Kept(samples: seq<seq<real>>, lnprobs: seq<real>)

  /** What `__call__` returns: the best vector, the kept positions and their log-probabilities. */
  datatype FitResult = FitResult(best: seq<real>, samples: seq<seq<real>>, lnprobs: seq<real>)

  /** The filter's test `lnprobs > -float_info.max`. */
  predicate Usable(s: Sample) {
    s.lnp.Above(Sentinel)
  }

  /** The reference filter: the usable entries of `chain`, in chain order. */
  function Filter(chain: seq<Sample>): (r: seq<Sample>)
    ensures forall k :: 0 <= k < |r| ==> Usable(r[k])
  {
    if |chain| == 0 then []
    else if Usable(chain[0]) then [chain[0]] + Filter(chain[1..])
    else Filter(chain[1..])
  }

  /** One usable entry placed in front of both columns. */
  function Cons(s: Sample, k: Kept): Kept
    requires Usable(s)
  {
    Kept([s.theta] + k.samples, [s.lnp.v] + k.lnprobs)
  }

  /** Splits usable entries into the aligned position and log-probability columns. */
  function Columns(s: seq<Sample>): (r: Kept)
    requires forall k :: 0 <= k < |s| ==> Usable(s[k])
    ensures |r.samples| == |s| && |r.lnprobs| == |s|
    ensures forall k :: 0 <= k < |s| ==> r.samples[k] == s[k].theta && Fin(r.lnprobs[k]) == s[k].lnp
  {
    if |s| == 0 then Kept([], []) else Cons(s[0], Columns(s[1..]))
  }

  /** `np.where(lnprobs > -float_info.max)[0]`, restricted to the indices from `from` on. */
  function WhereUsable(chain: seq<Sample>, from: nat): (idx: seq<nat>)
    requires from <= |chain|
    ensures forall k :: 0 <= k < |idx| ==> from <= idx[k] < |chain| && Usable(chain[idx[k]])
    ensures forall k, l :: 0 <= k < l < |idx| ==> idx[k] < idx[l]
    ensures forall i :: from <= i < |chain| && Usable(chain[i]) ==> i in idx
    decreases |chain| - from
  {
    if from == |chain| then []
    else if Usable(chain[from]) then [from] + WhereUsable(chain, from + 1)
    else WhereUsable(chain, from + 1)
  }

  /** `samples[indxs]` and `lnprobs[indxs]`: both columns gathered at the same indices. */
  function Gather(chain: seq<Sample>, idx: seq<nat>): (r: Kept)
    requires forall k :: 0 <= k < |idx| ==> idx[k] < |chain| && Usable(chain[idx[k]])
    ensures |r.samples| == |idx| && |r.lnprobs| == |idx|
    ensures forall k :: 0 <= k < |idx| ==> r.samples[k] == chain[idx[k]].theta && Fin(r.lnprobs[k]) == chain[idx[k]].lnp
  {
    if |idx| == 0 then Kept([], []) else Cons(chain[idx[0]], Gather(chain, idx[1..]))
  }

  /** Gathering at the `np.where` indices from `from` on yields the reference filter of that suffix. */
  lemma {:induction false} WhereUsableFilters(chain: seq<Sample>, from: nat)
    requires from <= |chain|
    ensures Gather(chain, WhereUsable(chain, from)) == Columns(Filter(chain[from..]))
    decreases |chain| - from
  {
    if from < |chain| {
      WhereUsableFilters(chain, from + 1);
      assert chain[from..] == [chain[from]] + chain[from + 1..];
      var idx := WhereUsable(chain, from + 1);
      if Usable(chain[from]) {
        assert ([from] + idx)[1..] == idx;
      }
    } else {
      assert chain[from..] == [];
    }
  }

  /** `Filter` keeps exactly the usable entries, as many times as they occur. */
  lemma {:induction false} FilterKeepsExactlyUsable(chain: seq<Sample>, s: Sample)
    ensures multiset(Filter(chain))[s] == (if Usable(s) then multiset(chain)[s] else 0)
  {
    if |chain| > 0 {
      FilterKeepsExactlyUsable(chain[1..], s);
      assert chain == [chain[0]] + chain[1..];
    }
  }

  /** The filter comes out empty exactly when no entry of the chain is usable. */
  lemma {:induction false} FilterEmptyIffNoneUsable(chain: seq<Sample>)
    ensures Filter(chain) == [] <==> forall i :: 0 <= i < |chain| ==> !Usable(chain[i])
  {
    if |chain| > 0 {
      FilterEmptyIffNoneUsable(chain[1..]);
      if !Usable(chain[0]) {
        assert forall i :: 1 <= i < |chain| ==> chain[i] == chain[1..][i - 1];
      }
    }
  }

  /** `k` is the first index at which `xs` attains its maximum. */
  predicate IsFirstMax(xs: seq<real>, k: nat) {
    && k < |xs|
    && (forall j :: 0 <= j < |xs| ==> xs[j] <= xs[k])
    && (forall j :: 0 <= j < k ==> xs[j] < xs[k])
  }

  /**
   * `Xmin = max(lnprobs)` followed by `np.where(lnprobs == Xmin)[0][0]`: one
   * scan that moves only on a strictly greater value.
   */
  method FirstMaxIndex(xs: seq<real>) returns (k: nat)
    requires |xs| > 0
    ensures IsFirstMax(xs, k)
  {
    k := 0;
    var i := 1;
    while i < |xs|
      invariant 1 <= i <= |xs|
      invariant k < i
      invariant forall j :: 0 <= j < i ==> xs[j] <= xs[k]
      invariant forall j :: 0 <= j < k ==> xs[j] < xs[k]
    {
      if xs[i] > xs[k] {
        k := i;
      }
      i := i + 1;
    }
  }

  /**
   * The end of `__call__`, EmceeFitter.py:123-135: filter the chain, then return the first
   * sample of highest log-probability with the filtered columns; `max` of an
   * empty sequence raises.
   */
  method PostProcess(chain: seq<Sample>) returns (r: Result<FitResult>)
    ensures r.Err? <==> Filter(chain) == []
    ensures r.Err? ==> r.error == EmptyChain
    ensures r.Ok? ==> Kept(r.value.samples, r.value.lnprobs) == Columns(Filter(chain))
    ensures r.Ok? ==> exists k: nat :: k < |r.value.samples| && IsFirstMax(r.value.lnprobs, k) && r.value.best == r.value.samples[k]
  {
    var indxs := WhereUsable(chain, 0);
    var kept := Gather(chain, indxs);
    WhereUsableFilters(chain, 0);
    assert chain[0..] == chain;
    if |kept.lnprobs| == 0 {
      return Err(EmptyChain);
    }
    assert Usable(chain[indxs[0]]);
    var indmin := FirstMaxIndex(kept.lnprobs);
    return Ok(FitResult(kept.samples[indmin], kept.samples, kept.lnprobs));
  }
}
