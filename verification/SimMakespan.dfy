/** Bounds on the makespan of every policy, and of one policy against another. */
module SimMakespan {
  import opened Sequences
  import opened Levels
  import opened SimModel
  import opened SimInvariant
  import opened SimTermination
  import opened SimPaths
  import opened SimGraham

  /** Along a chain of finished calls the model times add up to no more than the time from first release to last
      finish. */
  lemma {:induction false} ChainSpan(cfg: Config, w: Workload, s: Sim, chain: seq<nat>)
    requires Inv(cfg, w, s) && |s.calls| == |w.specs| == |cfg.prep| && Costed(cfg, s.calls) && AllFinished(s)
    requires IsChain(w, chain)
    ensures var last := s.calls[chain[|chain| - 1]];
      last.finish.Some? && s.calls[chain[0]].ready + Weigh(Models(cfg), chain) <= last.finish.value
  {
    hide AllSlots, Stamps, AllPlaces, ValidWorkload, ValidConfig;
    ShapeSizes(cfg, w, s);
    assert Books(s.calls[chain[0]], s.time);
    if |chain| > 1 {
      ChainSpan(cfg, w, s, chain[1..]);
      assert ReleasedAfterParents(w, s.calls, chain[1]);
    } else {
      assert chain[1..] == [] && Weigh(Models(cfg), []) == 0;
    }
  }

  ghost function Models(cfg: Config): (r: seq<int>)
    ensures |r| == |cfg.prep| && forall i :: 0 <= i < |r| ==> r[i] == cfg.prep[i].model
  {
    seq(|cfg.prep|, i requires 0 <= i < |cfg.prep| => cfg.prep[i].model)
  }

  /** On any engines, under any policy, costs and delays: no finished run is shorter than a dependency chain. */
  lemma ChainBound(cfg: Config, w: Workload, n: nat, chain: seq<nat>)
    requires ValidWorkload(w) && ValidConfig(cfg, w) && AllFinished(Reach(cfg, w, n)) && IsChain(w, chain)
    ensures |cfg.prep| == |w.specs| && FirstArrival(w.arrivals) + Weigh(Models(cfg), chain) <= Reach(cfg, w, n).time
  {
    hide Reach, AllSlots, Stamps, AllPlaces, Weigh, AllBooks;
    ReachInv(cfg, w, n);
    ReachCosted(cfg, w, n);
    var s := Reach(cfg, w, n);
    ChainSpan(cfg, w, s, chain);
    FinishedNow(cfg, w, s);
    assert ReleasedAfterParents(w, s.calls, chain[0]);
  }

  /** In the setting of list scheduling every finished run lies between max(heaviest chain, W / B) and W / B + (1 - 1 /
      B) times the heaviest chain. */
  lemma MakespanBounds(cfg: Config, w: Workload, n: nat, heaviest: int)
    requires Setting(cfg, w) && ChainsWithin(w, ModelTimes(w), heaviest)
    ensures ValidWorkload(w) && ValidConfig(cfg, w)
    ensures AllFinished(Reach(cfg, w, n)) ==>
      var makespan := Reach(cfg, w, n).time;
      && ChainsWithin(w, ModelTimes(w), makespan)
      && Sum(ModelTimes(w)) <= cfg.batch * makespan
      && cfg.batch * makespan <= Sum(ModelTimes(w)) + (cfg.batch - 1) * heaviest
  {
    hide Reach, ValidWorkload, ValidConfig, Weigh, Setting, AllFinished;
    GrahamBound(cfg, w, n, heaviest);
    SettingModels(cfg, w);
    if AllFinished(Reach(cfg, w, n)) {
      forall chain | IsChain(w, chain) ensures Weigh(ModelTimes(w), chain) <= Reach(cfg, w, n).time {
        ChainBound(cfg, w, n, chain);
      }
    }
  }

  lemma SettingModels(cfg: Config, w: Workload)
    requires Setting(cfg, w)
    ensures Models(cfg) == ModelTimes(w) && FirstArrival(w.arrivals) == 0 && ValidWorkload(w) && ValidConfig(cfg, w)
  {
    hide Ranked;
  }

  /** No policy is worse than any other by more than the factor 2 - 1 / B. */
  lemma TwoPolicies(mine: Config, other: Config, w: Workload, n: nat, m: nat)
    requires Setting(mine, w) && Setting(other, w) && mine.batch == other.batch
    ensures ValidWorkload(w) && ValidConfig(mine, w) && ValidConfig(other, w)
    ensures AllFinished(Reach(mine, w, n)) && AllFinished(Reach(other, w, m)) ==>
      mine.batch * Reach(mine, w, n).time <= (2 * mine.batch - 1) * Reach(other, w, m).time
  {
    hide Reach, ValidWorkload, ValidConfig, Setting, AllFinished, ChainsWithin;
    SettingModels(mine, w);
    SettingModels(other, w);
    if AllFinished(Reach(mine, w, n)) && AllFinished(Reach(other, w, m)) {
      var best := Reach(other, w, m).time;
      var enough := HeaviestChain(w, ModelTimes(w));
      MakespanBounds(other, w, m, enough);
      MakespanBounds(mine, w, n, best);
      assert (2 * mine.batch - 1) * best == mine.batch * best + (mine.batch - 1) * best;
    }
  }

  /** Some bound covers all chains: the total weight over all ranks does. */
  lemma HeaviestChain(w: Workload, weights: seq<int>) returns (bound: int)
    requires ValidWorkload(w) && |weights| == |w.specs| && forall i :: 0 <= i < |weights| ==> weights[i] >= 0
    ensures ChainsWithin(w, weights, bound)
  {
    var rank: seq<nat> :| Ranked(w, rank);
    bound := Sum(weights);
    forall chain | IsChain(w, chain) ensures Weigh(weights, chain) <= bound {
      ChainNoDup(w, rank, chain);
      WeighSubset(weights, chain);
    }
  }

  lemma {:induction false} RankClimbs(w: Workload, rank: seq<nat>, chain: seq<nat>, j: nat, k: nat)
    requires Ranked(w, rank) && IsChain(w, chain) && j < k < |chain|
    ensures rank[chain[j]] < rank[chain[k]]
  {
    var c := chain[k];
    assert chain[k - 1] in w.specs[c].parents;
    var a :| 0 <= a < |w.specs[c].parents| && w.specs[c].parents[a] == chain[k - 1];
    if j < k - 1 {
      RankClimbs(w, rank, chain, j, k - 1);
    }
  }

  lemma ChainNoDup(w: Workload, rank: seq<nat>, chain: seq<nat>)
    requires Ranked(w, rank) && IsChain(w, chain)
    ensures NoDup(chain)
  {
    forall j, k | 0 <= j < k < |chain| ensures chain[j] != chain[k] {
      RankClimbs(w, rank, chain, j, k);
    }
  }

  lemma {:induction false} WeighSubset(weights: seq<int>, chain: seq<nat>)
    requires NoDup(chain) && (forall k :: 0 <= k < |chain| ==> chain[k] < |weights|)
    requires forall i :: 0 <= i < |weights| ==> weights[i] >= 0
    ensures Weigh(weights, chain) <= Sum(weights)
    decreases |chain|
  {
    if chain == [] {
      SumNonNegative(weights);
    } else {
      var i := chain[0];
      var rest := weights[i := 0];
      WeighSubset(rest, chain[1..]);
      SumUpdate(weights, i, 0);
      WeighSame(weights, rest, chain[1..]);
    }
  }

  lemma {:induction false} WeighSame(s: seq<int>, t: seq<int>, chain: seq<nat>)
    requires |s| == |t| && forall k :: 0 <= k < |chain| ==> chain[k] < |s| && s[chain[k]] == t[chain[k]]
    ensures Weigh(s, chain) == Weigh(t, chain)
  {
    if chain != [] {
      WeighSame(s, t, chain[1..]);
    }
  }
}
