/**
  A Bernoulli/binomial simulation object: it holds a success probability and a
  trial count, fills its results sequence with one Bernoulli trial per index,
  and tallies the successes and failures found there.

  The uniform random generator is not modelled: each run is given the draws it
  consumes, one real in [0, 1) per trial.
 */
module BinomialSimulation {

  /** A Python number as the simulation sees it. Its type matters: validation
      accepts only an int trial count and only a float probability. Python's
      bool is an int subclass, so True and False are IntNum(1) and IntNum(0). */
  datatype Num = IntNum(i: int) | FloatNum(r: real)
  {
    /** The mathematical value; Python compares ints and floats exactly. */
    function Value(): real {
      match this
      case IntNum(i) => i as real
      case FloatNum(r) => r
    }
  }

  /** What the current-simulation query returns: the "no data" sentinel
      (Python's nan, returned after a warning) or the stored outcomes. */
  datatype Current = NoData | Simulation(outcomes: seq<bool>)

  /** The two-entry tally, indexed by "success" and "fail". */
  datatype Tally = Tally(success: nat, fail: nat)

  /** A value the uniform generator can produce. */
  predicate IsUnitDraw(d: real) {
    0.0 <= d < 1.0
  }

  predicate UnitDraws(draws: seq<real>) {
    forall k :: 0 <= k < |draws| ==> IsUnitDraw(draws[k])
  }

  function Max(a: int, b: int): int {
    if a < b then b else a
  }

  /** The text layout of the parameter description. */
  const Heading := "Current value of parameters:\n\t"
  const ProbabilityLabel := "Probability of success: "
  const TrialsLabel := "Number of trials: "

  /** The results sequence after a valid run of `n` trials with probability
      `p` over `draws`, starting from `prior`. Position k < n holds trial k;
      nothing clears `prior` first, so its entries at positions n and beyond
      are kept. */
  function RunResults(prior: seq<bool>, draws: seq<real>, p: real, n: nat): seq<bool>
    requires n <= |draws|
  {
    seq(Max(|prior|, n), k requires 0 <= k < Max(|prior|, n) =>
      if k < n then draws[k] < p else prior[k])
  }

  /** Counts the true and the false entries of `s`. */
  function CountTally(s: seq<bool>): (t: Tally)
    ensures t.success == multiset(s)[true]
    ensures t.fail == multiset(s)[false]
    ensures t.success + t.fail == |s|
  {
    if s == [] then Tally(0, 0)
    else
      assert s == [s[0]] + s[1..];
      var rest := CountTally(s[1..]);
      if s[0] then Tally(rest.success + 1, rest.fail)
      else Tally(rest.success, rest.fail + 1)
  }

  class BinomialDistSimulation {
    var p: Num
    var n: Num
    var results: seq<bool>

    /** Stores both parameters as given, without validating them, and starts
        with no results. */
    constructor (pSuccess: Num, nTrials: Num)
      ensures p == pSuccess && n == nTrials
      ensures results == []
    {
      p := pSuccess;
      n := nTrials;
      results := [];
    }

    /** One simulated trial, given the uniform draw it consumes: a success
        exactly when the draw is strictly below the probability. */
    function BernoulliTrial(draw: real): (success: bool)
      reads this
      ensures success <==> draw < p.Value()
      ensures IsUnitDraw(draw) && p.Value() <= 0.0 ==> !success
      ensures IsUnitDraw(draw) && p.Value() >= 1.0 ==> success
    {
      draw < p.Value()
    }

    /** The parameter description: fixed labels, the two parameters rendered
        by `show`, and nothing about the results. */
    function ToString(show: Num -> string): (text: string)
      reads this
      ensures |text| == |Heading| + |ProbabilityLabel| + |show(p)| + 2 + |TrialsLabel| + |show(n)| + 1
      ensures text[..|Heading| + |ProbabilityLabel|] == Heading + ProbabilityLabel
      ensures text[|Heading| + |ProbabilityLabel|..][..|show(p)|] == show(p)
      ensures text[|Heading| + |ProbabilityLabel| + |show(p)|..][..2 + |TrialsLabel|] == "\n\t" + TrialsLabel
      ensures text[|text| - |show(n)| - 1..|text| - 1] == show(n)
      ensures text[|text| - 1] == '\n'
    {
      Heading + ProbabilityLabel + show(p) + "\n\t" + TrialsLabel + show(n) + "\n"
    }

    method GetPSuccess() returns (v: Num)
      ensures v == p
    {
      v := p;
    }

    /** Sets the probability without validating it; nothing else changes. */
    method SetPSuccess(pSuccess: Num)
      modifies this`p
      ensures p == pSuccess
      ensures n == old(n) && results == old(results)
    {
      p := pSuccess;
    }

    method GetNTrials() returns (v: Num)
      ensures v == n
    {
      v := n;
    }

    /** Sets the trial count without validating it; nothing else changes. */
    method SetNTrials(nTrials: Num)
      modifies this`n
      ensures n == nTrials
      ensures p == old(p) && results == old(results)
    {
      n := nTrials;
    }

    /** The parameter check: the trial count is tested first (below one, or
        not an int), then the probability (not a float, above one, below
        zero); both bounds of the probability are inclusive. */
    function GenerateSimulationChecks(): (ok: bool)
      reads this
      ensures ok <==> n.IntNum? && n.i >= 1 && p.FloatNum? && 0.0 <= p.r <= 1.0
    {
      if n.Value() < 1.0 || !n.IntNum? then false
      else if !p.FloatNum? || p.Value() > 1.0 || p.Value() < 0.0 then false
      else true
    }

    /** Runs the simulation over `draws`. With invalid parameters it only
        warns (`warned`) and changes nothing. Otherwise trial i is written at
        index i, overwriting an earlier entry there or appending; the earlier
        results are never cleared. */
    method GenerateSimulation(draws: seq<real>) returns (warned: bool)
      requires UnitDraws(draws)
      requires GenerateSimulationChecks() ==> n.i <= |draws|
      modifies this`results
      ensures p == old(p) && n == old(n)
      ensures warned <==> !old(GenerateSimulationChecks())
      ensures warned ==> results == old(results)
      ensures !warned ==> results == RunResults(old(results), draws, p.r, n.i)
    {
      if !GenerateSimulationChecks() {
        return true;
      }
      // The source's "clear" builds a new series and discards it: no effect.
      var count := n.i;
      for i := 0 to count
        invariant |results| == Max(|old(results)|, i)
        invariant forall k :: 0 <= k < i ==> results[k] == (draws[k] < p.r)
        invariant forall k :: i <= k < |old(results)| ==> results[k] == old(results)[k]
      {
        var outcome := BernoulliTrial(draws[i]);
        if i < |results| {
          results := results[i := outcome];
        } else {
          results := results + [outcome];
        }
      }
      warned := false;
    }

    /** The stored outcomes, or the "no data" sentinel when there are none. */
    function GetCurrentSimulation(): (r: Current)
      reads this
      ensures r.NoData? <==> results == []
      ensures r.Simulation? ==> r.outcomes == results
    {
      if |results| == 0 then NoData else Simulation(results)
    }

    /** Successes and failures over all stored outcomes. */
    function ReturnCurrentTally(): (t: Tally)
      reads this
      ensures t.success == multiset(results)[true]
      ensures t.fail == multiset(results)[false]
      ensures t.success + t.fail == |results|
      ensures results == [] ==> t == Tally(0, 0)
    {
      CountTally(results)
    }
  }

  /** A run leaves max(|prior|, n) results, exactly n when nothing longer
      came before. */
  lemma RunLength(prior: seq<bool>, draws: seq<real>, p: real, n: nat)
    requires n <= |draws|
    ensures |RunResults(prior, draws, p, n)| == Max(|prior|, n)
    ensures |prior| <= n ==> |RunResults(prior, draws, p, n)| == n
  {
  }

  /** Repeating a run with the same trial count gives what the second run
      alone would have given: nothing is appended to the first run. */
  lemma RerunOverwrites(prior: seq<bool>, first: seq<real>, second: seq<real>, p: real, n: nat)
    requires n <= |first| && n <= |second|
    ensures RunResults(RunResults(prior, first, p, n), second, p, n) == RunResults(prior, second, p, n)
  {
  }

  /** A run over results no longer than n leaves no trace of them. */
  lemma ShortPriorReplaced(prior: seq<bool>, draws: seq<real>, p: real, n: nat)
    requires n <= |draws| && |prior| <= n
    ensures RunResults(prior, draws, p, n) == RunResults([], draws, p, n)
  {
  }

  /** A run over a longer earlier run keeps that run's tail: the tally then
      covers more than n trials. */
  lemma LongerPriorSurvives(prior: seq<bool>, draws: seq<real>, p: real, n: nat)
    requires n <= |draws| && n < |prior|
    ensures RunResults(prior, draws, p, n)[n..] == prior[n..]
    ensures CountTally(RunResults(prior, draws, p, n)).success + CountTally(RunResults(prior, draws, p, n)).fail == |prior|
  {
  }

  /** A sequence with no true entry tallies as all failures. */
  lemma {:induction false} AllFalseTally(s: seq<bool>)
    requires forall k :: 0 <= k < |s| ==> !s[k]
    ensures CountTally(s) == Tally(0, |s|)
  {
    if s != [] {
      AllFalseTally(s[1..]);
    }
  }

  /** A sequence with no false entry tallies as all successes. */
  lemma {:induction false} AllTrueTally(s: seq<bool>)
    requires forall k :: 0 <= k < |s| ==> s[k]
    ensures CountTally(s) == Tally(|s|, 0)
  {
    if s != [] {
      AllTrueTally(s[1..]);
    }
  }

  /** A fresh run with probability 0 never succeeds. */
  lemma FreshRunAtZero(draws: seq<real>, n: nat)
    requires UnitDraws(draws) && n <= |draws|
    ensures CountTally(RunResults([], draws, 0.0, n)) == Tally(0, n)
  {
    AllFalseTally(RunResults([], draws, 0.0, n));
  }

  /** A fresh run with probability 1 always succeeds. */
  lemma FreshRunAtOne(draws: seq<real>, n: nat)
    requires UnitDraws(draws) && n <= |draws|
    ensures CountTally(RunResults([], draws, 1.0, n)) == Tally(n, 0)
  {
    AllTrueTally(RunResults([], draws, 1.0, n));
  }

  /** Where every success of `a` is a success of `b`, `b` counts at least
      as many successes. */
  lemma {:induction false} DominatedSuccesses(a: seq<bool>, b: seq<bool>)
    requires |a| == |b|
    requires forall k :: 0 <= k < |a| ==> a[k] ==> b[k]
    ensures CountTally(a).success <= CountTally(b).success
  {
    if a != [] {
      DominatedSuccesses(a[1..], b[1..]);
    }
  }

  /** Over the same draws and the same earlier results, a run with a higher
      probability counts at least as many successes. */
  lemma RunMonotone(prior: seq<bool>, draws: seq<real>, lower: real, higher: real, n: nat)
    requires n <= |draws| && lower <= higher
    ensures CountTally(RunResults(prior, draws, lower, n)).success
         <= CountTally(RunResults(prior, draws, higher, n)).success
  {
    DominatedSuccesses(RunResults(prior, draws, lower, n), RunResults(prior, draws, higher, n));
  }

  /** The description depends on the parameters only, not on the results. */
  lemma DescriptionIgnoresResults(sim: BinomialDistSimulation, other: BinomialDistSimulation, show: Num -> string)
    requires sim.p == other.p && sim.n == other.n
    ensures sim.ToString(show) == other.ToString(show)
  {
  }

  /** The accessors through a fresh object: each getter returns what its
      setter stored, valid or not, and validity is judged only when asked. */
  method AccessorRoundTrip(pSuccess: Num, nTrials: Num) returns (gotP: Num, gotN: Num, valid: bool)
    ensures gotP == pSuccess && gotN == nTrials
    ensures valid <==> nTrials.IntNum? && nTrials.i >= 1 && pSuccess.FloatNum? && 0.0 <= pSuccess.r <= 1.0
  {
    var sim := new BinomialDistSimulation(FloatNum(0.5), IntNum(10));
    sim.SetPSuccess(pSuccess);
    sim.SetNTrials(nTrials);
    gotP := sim.GetPSuccess();
    gotN := sim.GetNTrials();
    valid := sim.GenerateSimulationChecks();
  }

  /** Through the object's own operations: a fresh object run with p = 0.0
      tallies all failures; after lowering the trial count to 1 and running
      again, the three results of the first run are still counted. */
  method ShrinkingRerun(draws: seq<real>) returns (first: Tally, second: Tally)
    requires UnitDraws(draws) && 3 <= |draws|
    ensures first == Tally(0, 3)
    ensures second.success + second.fail == 3
  {
    var sim := new BinomialDistSimulation(FloatNum(0.0), IntNum(3));
    var warned := sim.GenerateSimulation(draws);
    FreshRunAtZero(draws, 3);
    first := sim.ReturnCurrentTally();
    sim.SetNTrials(IntNum(1));
    warned := sim.GenerateSimulation(draws);
    second := sim.ReturnCurrentTally();
  }
}
