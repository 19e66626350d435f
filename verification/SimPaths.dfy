/** Finished runs: time accounts per call and per program, critical paths, and the makespan. */
module SimPaths {
  import opened Sequences
  import opened Levels
  import opened SimModel
  import opened SimInvariant
  import opened SimTermination
  import opened SimSteps
  import opened SequentialPrograms
  import Dag

  // ---- Costs stay as released ----------------------------------------------------

  ghost predicate Costed(cfg: Config, calls: seq<Call>)
    requires |cfg.prep| == |calls|
  {
    forall i :: 0 <= i < |calls| && calls[i].status != Pending ==>
      calls[i].engine == cfg.prep[i].engine && calls[i].model == cfg.prep[i].model
        && calls[i].sched == cfg.prep[i].sched
  }

  lemma {:induction false} ReachCosted(cfg: Config, w: Workload, n: nat)
    requires ValidWorkload(w) && ValidConfig(cfg, w)
    ensures |Reach(cfg, w, n).calls| == |cfg.prep| && Costed(cfg, Reach(cfg, w, n).calls)
  {
    hide *;
    ReachUnroll(cfg, w, n);
    ShapeSizes(cfg, w, Reach(cfg, w, n));
    if n == 0 {
      InitPending(cfg, w);
      NobodyCosted(cfg, Init(cfg, w).calls);
    } else {
      ReachCosted(cfg, w, n - 1);
      var s := Reach(cfg, w, n - 1);
      if !AllFinished(s) && s.time <= cfg.maxTime {
        ReachInv(cfg, w, n - 1);
        StepCosted(cfg, w, s);
      }
    }
  }

  lemma NobodyCosted(cfg: Config, calls: seq<Call>)
    requires |cfg.prep| == |calls| && forall i :: 0 <= i < |calls| ==> calls[i].status == Pending
    ensures Costed(cfg, calls)
  {
  }

  lemma InitPending(cfg: Config, w: Workload)
    requires ValidWorkload(w) && ValidConfig(cfg, w)
    ensures forall i :: 0 <= i < |Init(cfg, w).calls| ==>
      Init(cfg, w).calls[i] == Fresh(w.specs[i]) && Init(cfg, w).calls[i].status == Pending
    ensures |Init(cfg, w).calls| > 0 && Init(cfg, w).gantt == []
  {
  }

  lemma StepCosted(cfg: Config, w: Workload, s: Sim)
    requires Inv(cfg, w, s) && Shape(cfg, w, s) && s.time <= cfg.maxTime && |s.calls| == |cfg.prep|
    requires Costed(cfg, s.calls)
    ensures |Step(cfg, w, s).calls| == |cfg.prep| && Costed(cfg, Step(cfg, w, s).calls)
  {
    hide Inv, Shape, Step, Earliest, ReleaseUpTo, Released;
    ShapeSizes(cfg, w, Step(cfg, w, s));
    forall i | 0 <= i < |s.calls| && Step(cfg, w, s).calls[i].status != Pending
      ensures Step(cfg, w, s).calls[i].model == cfg.prep[i].model
      ensures Step(cfg, w, s).calls[i].sched == cfg.prep[i].sched
        && Step(cfg, w, s).calls[i].engine == cfg.prep[i].engine
    {
      StepCall(cfg, w, s, i);
    }
  }

  // ---- Time accounts ---------------------------------------------------------------

  /** The time account of a finished call, and of one still alive, in every state of every run. */
  lemma TimeAccount(cfg: Config, w: Workload, n: nat, i: nat)
    requires ValidWorkload(w) && ValidConfig(cfg, w) && i < |w.specs|
    ensures |Reach(cfg, w, n).calls| == |w.specs| == |cfg.prep|
    ensures var s := Reach(cfg, w, n);
      var c := s.calls[i];
      && (c.status == Finished ==>
            c.finish.Some? && c.finish.value - c.ready == c.wait + cfg.prep[i].model + c.swap + cfg.prep[i].sched)
      && (Live(c) ==>
            && s.time - c.ready == c.wait + c.executed + (c.swap - c.swapLeft) + (cfg.prep[i].sched - c.schedLeft)
            && c.executed + c.remaining == cfg.prep[i].model)
  {
    hide ValidWorkload, ValidConfig, AllPlaces, AllAfterParents, AllSlots, Stamps, Reach;
    ReachInv(cfg, w, n);
    ReachCosted(cfg, w, n);
    var s := Reach(cfg, w, n);
    assert Books(s.calls[i], s.time);
  }

  /** Dependency safety: a call is never released before every parent has finished and the delay has passed. */
  lemma ParentsFirst(cfg: Config, w: Workload, n: nat, i: nat, p: nat)
    requires ValidWorkload(w) && ValidConfig(cfg, w) && i < |w.specs| && p in w.specs[i].parents
    ensures |Reach(cfg, w, n).calls| == |w.specs| && p < |w.specs|
    ensures var s := Reach(cfg, w, n);
      s.calls[i].status != Pending ==>
        s.calls[p].finish.Some? && s.calls[p].finish.value + w.specs[i].releaseDelay <= s.calls[i].ready
  {
    hide ValidConfig, AllPlaces, AllBooks, AllSlots, Stamps, Reach;
    ReachInv(cfg, w, n);
    var s := Reach(cfg, w, n);
    assert ReleasedAfterParents(w, s.calls, i);
  }

  // ---- The dependency graph of a program ---------------------------------------------

  function ProgramGraph(w: Workload, pid: nat): (g: Dag.Graph<nat>)
    ensures forall i: nat :: i in g <==> i < |w.specs| && w.specs[i].pid == pid
    ensures forall i: nat :: i in g ==> g[i] == w.specs[i].parents
  {
    map i: nat | i < |w.specs| && w.specs[i].pid == pid :: w.specs[i].parents
  }

  lemma ProgramOrder(w: Workload, pid: nat) returns (rank: map<nat, nat>)
    requires ValidWorkload(w)
    ensures Dag.Closed(ProgramGraph(w, pid)) && Dag.Ranked(ProgramGraph(w, pid), rank)
  {
    var order :| Ranked(w, order);
    rank := map i: nat | i < |w.specs| && w.specs[i].pid == pid :: order[i];
  }

  /** How long a call was in the system: 0 if it has not finished. */
  function LocalResponse(c: Call): int { if c.finish.None? then 0 else Max(0, c.finish.value - c.ready) }

  function Responses(w: Workload, calls: seq<Call>, pid: nat): (m: map<nat, int>)
    requires |calls| == |w.specs|
    ensures m.Keys == ProgramGraph(w, pid).Keys
    ensures forall i :: i in m ==> m[i] == LocalResponse(calls[i]) && m[i] >= 0
    ensures forall i :: i in m ==>
      m[i] == if calls[i].finish.None? then 0 else Max(0, calls[i].finish.value - calls[i].ready)
  {
    map i: nat | i < |w.specs| && w.specs[i].pid == pid :: LocalResponse(calls[i])
  }

  function ModelCosts(cfg: Config, w: Workload, pid: nat): (m: map<nat, int>)
    requires |cfg.prep| == |w.specs|
    ensures m.Keys == ProgramGraph(w, pid).Keys
    ensures forall i :: i in m ==> m[i] == cfg.prep[i].model
  {
    map i: nat | i < |w.specs| && w.specs[i].pid == pid :: cfg.prep[i].model
  }

  lemma {:induction false} PathMonotone(low: map<nat, int>, high: map<nat, int>, path: seq<nat>)
    requires forall k :: 0 <= k < |path| ==> path[k] in low && path[k] in high && low[path[k]] <= high[path[k]]
    ensures Dag.PathWeight(low, path) <= Dag.PathWeight(high, path)
  {
    if path != [] {
      PathMonotone(low, high, path[..|path| - 1]);
    }
  }

  /** Along a path of finished calls the responses add up to no more than the time from first release to last finish. */
  lemma {:induction false} PathSpan(cfg: Config, w: Workload, s: Sim, pid: nat, path: seq<nat>)
    requires Inv(cfg, w, s) && |s.calls| == |w.specs| && Dag.IsPath(ProgramGraph(w, pid), path)
    requires forall k :: 0 <= k < |path| ==> s.calls[path[k]].status == Finished
    ensures var last := s.calls[path[|path| - 1]];
      last.finish.Some? && s.calls[path[0]].ready
        + Dag.PathWeight(Responses(w, s.calls, pid), path) <= last.finish.value
  {
    hide AllSlots, Stamps, AllPlaces, ValidWorkload, ValidConfig;
    ShapeSizes(cfg, w, s);
    var front, n := path[..|path| - 1], path[|path| - 1];
    assert Books(s.calls[n], s.time);
    if front == [] {
      assert Dag.PathWeight(Responses(w, s.calls, pid), front) == 0;
    } else {
      PathSpan(cfg, w, s, pid, front);
      assert front[|front| - 1] in w.specs[n].parents;
      assert ReleasedAfterParents(w, s.calls, n);
    }
  }

  // ---- Program results -------------------------------------------------------------------

  datatype Metrics = Metrics(finish: int, response: int, wait: int, execution: int, swap: int, sched: int,
    critical: int)

  const WAIT: Call -> int := (c: Call) => c.wait
  const MODEL: Call -> int := (c: Call) => c.model
  const SWAP: Call -> int := (c: Call) => c.swap
  const SCHED: Call -> int := (c: Call) => c.sched
  const SPAN: Call -> int := (c: Call) => if c.finish.Some? then c.finish.value - c.ready else 0

  function Total(calls: seq<Call>, ids: seq<nat>, cost: Call -> int): int
    requires forall i :: i in ids ==> i < |calls|
  {
    if ids == [] then 0
    else
      assert forall i :: i in ids <==> i == ids[0] || i in ids[1..];
      assert ids[0] in ids;
      cost(calls[ids[0]]) + Total(calls, ids[1..], cost)
  }

  /** `max(finish_time or 0)`. */
  function LatestFinish(calls: seq<Call>, ids: seq<nat>): (r: int)
    requires ids != [] && forall i :: i in ids ==> i < |calls|
    ensures forall i :: i in ids && calls[i].finish.Some? ==> calls[i].finish.value <= r
    ensures exists i :: i in ids && r == if calls[i].finish.Some? then calls[i].finish.value else 0
  {
    assert forall i :: i in ids <==> i == ids[0] || i in ids[1..];
    assert ids[0] in ids;
    var first := match calls[ids[0]].finish case Some(t) => t case None => 0;
    if |ids| == 1 then first else Max(first, LatestFinish(calls, ids[1..]))
  }

  /** What the critical path of a program is: its whole response if the program is one chain,
      and otherwise the heaviest dependency path, weighing each call by its own response. */
  ghost predicate CriticalResponse(w: Workload, calls: seq<Call>, pid: nat, ids: seq<nat>, value: int)
    requires |calls| == |w.specs| && pid < |w.arrivals| && ids != [] && Lists(w, pid, ids)
  {
    var g, weight := ProgramGraph(w, pid), Responses(w, calls, pid);
    if Straight(w, pid) then value == LatestFinish(calls, ids) - w.arrivals[pid]
    else
      && (forall path :: Dag.IsPath(g, path) ==> Dag.PathWeight(weight, path) <= value)
      && (exists path :: Dag.IsPath(g, path) && Dag.PathWeight(weight, path) == value)
  }

  /** `_critical_path_response_time`, with its memoised recursive visit. */
  method CriticalPath(w: Workload, calls: seq<Call>, pid: nat, ids: seq<nat>) returns (value: int)
    requires ValidWorkload(w) && |calls| == |w.specs| && pid < |w.arrivals| && ids != [] && Lists(w, pid, ids)
    ensures CriticalResponse(w, calls, pid, ids, value)
  {
    var sequential := IsSequential(w, pid, ids);
    if sequential {
      return LatestFinish(calls, ids) - w.arrivals[pid];
    }
    value := HeaviestResponse(w, calls, pid, ids);
  }

  method HeaviestResponse(w: Workload, calls: seq<Call>, pid: nat, ids: seq<nat>) returns (value: int)
    requires ValidWorkload(w) && |calls| == |w.specs| && ids != [] && Lists(w, pid, ids)
    ensures var g, weight := ProgramGraph(w, pid), Responses(w, calls, pid);
      && (forall path :: Dag.IsPath(g, path) ==> Dag.PathWeight(weight, path) <= value)
      && (exists path :: Dag.IsPath(g, path) && Dag.PathWeight(weight, path) == value)
  {
    hide ValidWorkload, Dag.Longest, Dag.IsPath;
    var g, weight := ProgramGraph(w, pid), Responses(w, calls, pid);
    ghost var rank := ProgramOrder(w, pid);
    var memo: map<nat, int> := map[];
    ghost var best := ids[0];
    assert ids[0] in ids;
    value, memo := Dag.Visit(g, weight, memo, ids[0], rank);
    for k := 1 to |ids|
      invariant Dag.Settled(g, rank, weight, memo)
      invariant best in g && value == Dag.Longest(g, rank, weight, best)
      invariant forall j :: 0 <= j < k ==> ids[j] in g && Dag.Longest(g, rank, weight, ids[j]) <= value
    {
      var one;
      assert ids[k] in ids;
      one, memo := Dag.Visit(g, weight, memo, ids[k], rank);
      if one > value {
        value, best := one, ids[k];
      }
    }
    HeaviestIs(w, calls, pid, ids, rank, best, value);
  }

  lemma HeaviestIs(w: Workload, calls: seq<Call>, pid: nat, ids: seq<nat>, rank: map<nat, nat>, best: nat, value: int)
    requires |calls| == |w.specs| && Lists(w, pid, ids)
    requires Dag.Closed(ProgramGraph(w, pid)) && Dag.Ranked(ProgramGraph(w, pid), rank)
    requires var g, weight := ProgramGraph(w, pid), Responses(w, calls, pid);
      && best in g && value == Dag.Longest(g, rank, weight, best)
      && forall j :: 0 <= j < |ids| ==> ids[j] in g && Dag.Longest(g, rank, weight, ids[j]) <= value
    ensures var g, weight := ProgramGraph(w, pid), Responses(w, calls, pid);
      && (forall path :: Dag.IsPath(g, path) ==> Dag.PathWeight(weight, path) <= value)
      && (exists path :: Dag.IsPath(g, path) && Dag.PathWeight(weight, path) == value)
  {
    hide Dag.Longest, Dag.PathWeight;
    var g, weight := ProgramGraph(w, pid), Responses(w, calls, pid);
    forall path | Dag.IsPath(g, path) ensures Dag.PathWeight(weight, path) <= value {
      Dag.LongestBounds(g, rank, weight, path);
      assert path[|path| - 1] in ids;
    }
    var heaviest := Dag.LongestAttained(g, rank, weight, best);
  }

  /** What a report says of a program. */
  ghost predicate Reports(w: Workload, calls: seq<Call>, pid: nat, ids: seq<nat>, m: Metrics)
    requires |calls| == |w.specs| && pid < |w.arrivals| && ids != [] && Lists(w, pid, ids)
  {
    && m.finish == LatestFinish(calls, ids) && m.response == m.finish - w.arrivals[pid]
    && m.wait == Total(calls, ids, (c: Call) => c.wait) && m.execution == Total(calls, ids, (c: Call) => c.model)
    && m.swap == Total(calls, ids, (c: Call) => c.swap) && m.sched == Total(calls, ids, (c: Call) => c.sched)
    && CriticalResponse(w, calls, pid, ids, m.critical)
  }

  lemma {:induction false} SameTotal(calls: seq<Call>, ids: seq<nat>, cost: Call -> int, same: Call -> int)
    requires (forall i :: i in ids ==> i < |calls|) && forall c :: cost(c) == same(c)
    ensures Total(calls, ids, cost) == Total(calls, ids, same)
  {
    if ids != [] {
      assert ids[0] in ids && forall i :: i in ids[1..] ==> i in ids;
      SameTotal(calls, ids[1..], cost, same);
    }
  }

  /** The per-program part of `_result`. */
  method ProgramResult(w: Workload, calls: seq<Call>, pid: nat, ids: seq<nat>) returns (m: Metrics)
    requires ValidWorkload(w) && |calls| == |w.specs| && pid < |w.arrivals| && ids != [] && Lists(w, pid, ids)
    ensures Reports(w, calls, pid, ids, m)
  {
    var finish := LatestFinish(calls, ids);
    var critical := CriticalPath(w, calls, pid, ids);
    SameTotal(calls, ids, WAIT, (c: Call) => c.wait);
    SameTotal(calls, ids, MODEL, (c: Call) => c.model);
    SameTotal(calls, ids, SWAP, (c: Call) => c.swap);
    SameTotal(calls, ids, SCHED, (c: Call) => c.sched);
    m := Metrics(finish, finish - w.arrivals[pid],
      Total(calls, ids, WAIT), Total(calls, ids, MODEL),
      Total(calls, ids, SWAP), Total(calls, ids, SCHED), critical);
  }

  lemma {:induction false} TotalsAdd(calls: seq<Call>, ids: seq<nat>)
    requires forall i :: i in ids ==>
      i < |calls| && calls[i].finish.Some?
      && calls[i].finish.value - calls[i].ready == calls[i].wait + calls[i].model + calls[i].swap + calls[i].sched
    ensures Total(calls, ids, SPAN)
         == Total(calls, ids, WAIT) + Total(calls, ids, MODEL) + Total(calls, ids, SWAP) + Total(calls, ids, SCHED)
  {
    if ids != [] {
      assert ids[0] in ids && forall i :: i in ids[1..] ==> i in ids;
      TotalsAdd(calls, ids[1..]);
    }
  }

  ghost predicate AllDone(w: Workload, calls: seq<Call>, ids: seq<nat>) {
    forall i :: i in ids ==> i < |calls| && calls[i].status == Finished
  }

  /** The reported totals of a finished program account for all the time its calls spent in the system. */
  lemma TotalsBalance(cfg: Config, w: Workload, n: nat, pid: nat, ids: seq<nat>)
    requires ValidWorkload(w) && ValidConfig(cfg, w) && Lists(w, pid, ids)
    requires AllDone(w, Reach(cfg, w, n).calls, ids)
    ensures var calls := Reach(cfg, w, n).calls;
      Total(calls, ids, SPAN)
        == Total(calls, ids, WAIT) + Total(calls, ids, MODEL) + Total(calls, ids, SWAP) + Total(calls, ids, SCHED)
  {
    hide AllSlots, Stamps, AllPlaces, AllAfterParents, ValidWorkload, ValidConfig, Reach, Total;
    ReachInv(cfg, w, n);
    var s := Reach(cfg, w, n);
    forall i | i in ids
      ensures s.calls[i].finish.Some?
      ensures s.calls[i].finish.value - s.calls[i].ready == s.calls[i].wait + s.calls[i].model + s.calls[i].swap
        + s.calls[i].sched
    {
      assert Books(s.calls[i], s.time);
    }
    TotalsAdd(s.calls, ids);
  }

  /** For every finished program: longest chain of model times <= critical-path response <= response. */
  lemma CriticalPathBounds(cfg: Config, w: Workload, n: nat, pid: nat, ids: seq<nat>, critical: int)
    requires ValidWorkload(w) && ValidConfig(cfg, w) && pid < |w.arrivals| && ids != [] && Lists(w, pid, ids)
    requires AllDone(w, Reach(cfg, w, n).calls, ids) && |cfg.prep| == |w.specs| == |Reach(cfg, w, n).calls|
    requires CriticalResponse(w, Reach(cfg, w, n).calls, pid, ids, critical)
    ensures forall path :: Dag.IsPath(ProgramGraph(w, pid), path) ==>
      Dag.PathWeight(ModelCosts(cfg, w, pid), path) <= critical
    ensures critical <= LatestFinish(Reach(cfg, w, n).calls, ids) - w.arrivals[pid]
  {
    hide Reach, ValidWorkload, ValidConfig, Straight, LatestFinish, Dag.PathWeight;
    var calls := Reach(cfg, w, n).calls;
    forall path | Dag.IsPath(ProgramGraph(w, pid), path)
      ensures Dag.PathWeight(ModelCosts(cfg, w, pid), path) <= Dag.PathWeight(Responses(w, calls, pid), path)
      ensures Dag.PathWeight(Responses(w, calls, pid), path) <= LatestFinish(calls, ids) - w.arrivals[pid]
    {
      PathInResponse(cfg, w, n, pid, ids, path);
    }
  }

  lemma PathInResponse(cfg: Config, w: Workload, n: nat, pid: nat, ids: seq<nat>, path: seq<nat>)
    requires ValidWorkload(w) && ValidConfig(cfg, w) && pid < |w.arrivals| && ids != [] && Lists(w, pid, ids)
    requires AllDone(w, Reach(cfg, w, n).calls, ids) && |cfg.prep| == |w.specs| == |Reach(cfg, w, n).calls|
    requires Dag.IsPath(ProgramGraph(w, pid), path)
    ensures var calls := Reach(cfg, w, n).calls;
      && Dag.PathWeight(ModelCosts(cfg, w, pid), path) <= Dag.PathWeight(Responses(w, calls, pid), path)
      && Dag.PathWeight(Responses(w, calls, pid), path) <= LatestFinish(calls, ids) - w.arrivals[pid]
  {
    hide Reach, ValidWorkload, ValidConfig, Dag.PathWeight, Stamps, AllSlots, AllPlaces, LatestFinish;
    ReachInv(cfg, w, n);
    ReachCosted(cfg, w, n);
    var s := Reach(cfg, w, n);
    forall k | 0 <= k < |path| ensures path[k] in ids && cfg.prep[path[k]].model <= LocalResponse(s.calls[path[k]]) {
      assert path[k] in ids;
      assert Books(s.calls[path[k]], s.time);
    }
    PathMonotone(ModelCosts(cfg, w, pid), Responses(w, s.calls, pid), path);
    PathSpan(cfg, w, s, pid, path);
    assert ReleasedAfterParents(w, s.calls, path[0]);
  }

  // ---- Makespan ------------------------------------------------------------------------------

  /** The last call of a run finishes exactly when the run ends. */
  lemma LastCallEnds(cfg: Config, w: Workload, s: Sim)
    requires Inv(cfg, w, s) && Shape(cfg, w, s) && s.time <= cfg.maxTime && !AllFinished(s)
      && AllFinished(Step(cfg, w, s))
    ensures Step(cfg, w, s).time == s.time + 1
    ensures exists i :: 0 <= i < |s.calls| && Step(cfg, w, s).calls[i].finish == Some(Step(cfg, w, s).time)
  {
    hide Inv, Shape, ReleaseUpTo, ScheduleUpTo, TickUpTo, Released, Kept, NextRelease, Earliest;
    ShapeSizes(cfg, w, s);
    StepResult(cfg, w, s);
    var r := Step(cfg, w, s);
    ShapeSizes(cfg, w, r);
    var i :| 0 <= i < |s.calls| && s.calls[i].status != Finished;
    EndsNow(cfg, w, s, i);
  }

  lemma EndsNow(cfg: Config, w: Workload, s: Sim, i: nat)
    requires Inv(cfg, w, s) && Shape(cfg, w, s) && s.time <= cfg.maxTime && i < |s.calls|
    requires s.calls[i].status != Finished && Step(cfg, w, s).calls[i].status == Finished
    ensures Step(cfg, w, s).calls[i].finish == Some(s.time + 1)
  {
    hide Inv, Shape, Step, Released, Earliest;
    StepCall(cfg, w, s, i);
  }

  /** In every finished run some call finishes exactly at the final clock reading, and none later. */
  lemma {:induction false} FinalTime(cfg: Config, w: Workload, n: nat)
    requires ValidWorkload(w) && ValidConfig(cfg, w) && AllFinished(Reach(cfg, w, n))
    ensures |Reach(cfg, w, n).calls| == |w.specs|
    ensures exists i :: 0 <= i < |w.specs| && Reach(cfg, w, n).calls[i].finish == Some(Reach(cfg, w, n).time)
    ensures forall i :: 0 <= i < |w.specs| ==>
      Reach(cfg, w, n).calls[i].finish.Some? && Reach(cfg, w, n).calls[i].finish.value <= Reach(cfg, w, n).time
  {
    hide *;
    ReachUnroll(cfg, w, n);
    ReachInv(cfg, w, n);
    ShapeSizes(cfg, w, Reach(cfg, w, n));
    AllFinishedBooks(cfg, w, Reach(cfg, w, n));
    if n == 0 {
      InitPending(cfg, w);
      PendingIsUnfinished(Init(cfg, w));
    } else {
      var s := Reach(cfg, w, n - 1);
      ReachInv(cfg, w, n - 1);
      ShapeSizes(cfg, w, s);
      if AllFinished(s) || s.time > cfg.maxTime {
        FinalTime(cfg, w, n - 1);
      } else {
        LastCallEnds(cfg, w, s);
      }
    }
  }

  lemma PendingIsUnfinished(s: Sim)
    requires |s.calls| > 0 && s.calls[0].status == Pending
    ensures !AllFinished(s)
  {
  }

  lemma AllFinishedBooks(cfg: Config, w: Workload, s: Sim)
    requires Inv(cfg, w, s) && AllFinished(s)
    ensures forall i :: 0 <= i < |s.calls| ==> s.calls[i].finish.Some? && s.calls[i].finish.value <= s.time
  {
    hide AllSlots, Stamps, AllPlaces, AllAfterParents, Shape;
    FinishedNow(cfg, w, s);
    BooksStart(s.calls, s.time, 0);
  }
}
