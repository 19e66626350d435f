/** List scheduling on one engine: every policy keeps the batch busy, so the makespan obeys Graham's bound. */
module SimGraham {
  import opened Sequences
  import opened Levels
  import opened SimModel
  import opened SimInvariant
  import opened SimTermination

  /** One engine, the fixed execution model, a window of one step, and every program present from time zero. */
  ghost predicate Setting(cfg: Config, w: Workload) {
    && ValidWorkload(w) && ValidConfig(cfg, w)
    && cfg.engines == 1 && cfg.interval == 1
    && (forall v :: cfg.penalty(v) == 0)
    && (forall i :: 0 <= i < |cfg.prep| ==> cfg.prep[i].model == w.specs[i].modelTime && cfg.prep[i].sched == 0)
    && (forall p :: 0 <= p < |w.arrivals| ==> w.arrivals[p] == 0)
    && (forall i :: 0 <= i < |w.specs| ==> w.specs[i].releaseDelay == 0 && w.specs[i].submitTime == None)
  }

  /** A dependency chain: each call is a parent of the next. */
  ghost predicate IsChain(w: Workload, chain: seq<nat>) {
    && chain != []
    && (forall k :: 0 <= k < |chain| ==> chain[k] < |w.specs|)
    && (forall k :: 0 < k < |chain| ==> chain[k - 1] in w.specs[chain[k]].parents)
  }

  function Weigh(weights: seq<int>, chain: seq<nat>): int
    requires forall k :: 0 <= k < |chain| ==> chain[k] < |weights|
  {
    if chain == [] then 0 else weights[chain[0]] + Weigh(weights, chain[1..])
  }

  ghost predicate ChainsWithin(w: Workload, weights: seq<int>, bound: int)
    requires |weights| == |w.specs|
  {
    forall chain :: IsChain(w, chain) ==> Weigh(weights, chain) <= bound
  }

  ghost function ModelTimes(w: Workload): (r: seq<int>)
    ensures |r| == |w.specs| && forall i :: 0 <= i < |r| ==> r[i] == w.specs[i].modelTime
  {
    seq(|w.specs|, i requires 0 <= i < |w.specs| => w.specs[i].modelTime)
  }

  function LeftOf(c: Call): int { if c.status == Finished then 0 else c.remaining }

  ghost function Left(calls: seq<Call>): (r: seq<int>)
    ensures |r| == |calls| && forall i :: 0 <= i < |r| ==> r[i] == LeftOf(calls[i])
  {
    seq(|calls|, i requires 0 <= i < |calls| => LeftOf(calls[i]))
  }

  // ---- Chains --------------------------------------------------------------------

  lemma {:induction false} WeighMonotone(s: seq<int>, t: seq<int>, chain: seq<nat>)
    requires |s| == |t| && forall k :: 0 <= k < |chain| ==> chain[k] < |s|
    requires forall i :: 0 <= i < |s| ==> s[i] <= t[i]
    ensures Weigh(s, chain) <= Weigh(t, chain)
    ensures (exists k :: 0 <= k < |chain| && s[chain[k]] < t[chain[k]]) ==> Weigh(s, chain) < Weigh(t, chain)
  {
    if chain != [] {
      WeighMonotone(s, t, chain[1..]);
      assert forall k :: 0 < k < |chain| ==> chain[k] == chain[1..][k - 1];
    }
  }

  lemma {:induction false} WeighZero(s: seq<int>, chain: seq<nat>)
    requires forall k :: 0 <= k < |chain| ==> chain[k] < |s| && s[chain[k]] == 0
    ensures Weigh(s, chain) == 0
  {
    if chain != [] {
      WeighZero(s, chain[1..]);
    }
  }

  lemma ChainTail(w: Workload, chain: seq<nat>, k: nat)
    requires IsChain(w, chain) && k < |chain|
    ensures IsChain(w, chain[k..])
  {
  }

  lemma ChainCons(w: Workload, p: nat, chain: seq<nat>)
    requires IsChain(w, chain) && p in w.specs[chain[0]].parents && p < |w.specs|
    ensures IsChain(w, [p] + chain)
  {
  }

  lemma {:induction false} WeighSkip(weights: seq<int>, chain: seq<nat>, k: nat)
    requires k <= |chain| && forall j :: 0 <= j < |chain| ==> chain[j] < |weights|
    requires forall j :: 0 <= j < k ==> weights[chain[j]] == 0
    ensures Weigh(weights, chain) == Weigh(weights, chain[k..])
  {
    if k > 0 {
      WeighSkip(weights, chain[1..], k - 1);
      assert chain[1..][k - 1..] == chain[k..];
    } else {
      assert chain[0..] == chain;
    }
  }

  /** If every call whose parents are done makes a tick of progress, the heaviest remaining chain gets lighter by
      one. */
  lemma ChainsShrink(w: Workload, was: seq<int>, now: seq<int>, bound: int)
    requires |was| == |now| == |w.specs|
    requires forall i, k :: 0 <= i < |w.specs| && 0 <= k < |w.specs[i].parents| ==> w.specs[i].parents[k] < |w.specs|
    requires forall i :: 0 <= i < |was| ==> 0 <= now[i] <= was[i]
    requires forall i :: 0 <= i < |was| && was[i] > 0 && (forall p :: p in w.specs[i].parents ==> was[p] == 0) ==>
      now[i] < was[i]
    requires ChainsWithin(w, was, bound)
    requires exists i :: 0 <= i < |was| && now[i] < was[i]
    ensures ChainsWithin(w, now, bound - 1)
  {
    forall chain | IsChain(w, chain) ensures Weigh(now, chain) <= bound - 1 {
      ChainShrinks(w, was, now, bound, chain, 0);
    }
  }

  lemma ChainShrinks(w: Workload, was: seq<int>, now: seq<int>, bound: int, chain: seq<nat>, k: nat)
    requires |was| == |now| == |w.specs|
    requires forall i, k :: 0 <= i < |w.specs| && 0 <= k < |w.specs[i].parents| ==> w.specs[i].parents[k] < |w.specs|
    requires forall i :: 0 <= i < |was| ==> 0 <= now[i] <= was[i]
    requires forall i :: 0 <= i < |was| && was[i] > 0 && (forall p :: p in w.specs[i].parents ==> was[p] == 0) ==>
      now[i] < was[i]
    requires ChainsWithin(w, was, bound)
    requires exists i :: 0 <= i < |was| && now[i] < was[i]
    requires IsChain(w, chain) && k <= |chain| && forall j :: 0 <= j < k ==> was[chain[j]] == 0
    ensures Weigh(now, chain) <= bound - 1
    decreases |chain| - k
  {
    if k == |chain| {
      WeighZero(now, chain);
      var i :| 0 <= i < |was| && now[i] < was[i];
      assert IsChain(w, [i]) && Weigh(was, [i]) == was[i];
    } else if was[chain[k]] == 0 {
      ChainShrinks(w, was, now, bound, chain, k + 1);
    } else {
      var rest, c := chain[k..], chain[k];
      ChainTail(w, chain, k);
      WeighSkip(now, chain, k);
      WeighMonotone(now, was, rest);
      if p :| p in w.specs[c].parents && was[p] > 0 {
        ChainCons(w, p, rest);
        assert ([p] + rest)[1..] == rest;
      } else {
        assert rest[0] == c && now[c] < was[c];
      }
    }
  }

  // ---- One step ------------------------------------------------------------------

  ghost predicate PlainCall(w: Workload, c: Call, i: nat)
    requires i < |w.specs|
  {
    && (c.status == Pending ==> c.remaining == w.specs[i].modelTime && c.swapLeft == 0)
    && (Live(c) ==> c.swapLeft == 0 && c.schedLeft == 0 && c.engine == 0)
  }

  ghost predicate PlainCalls(w: Workload, calls: seq<Call>)
    requires |calls| == |w.specs|
  {
    forall i :: 0 <= i < |calls| ==> PlainCall(w, calls[i], i)
  }

  ghost predicate Due(s: Sim)
    requires |s.windows| > 0
  {
    s.windows[0] == 0 || RunningOn(s.calls, 0) == []
  }

  lemma SettingShape(cfg: Config, w: Workload, s: Sim)
    requires Setting(cfg, w) && Shape(cfg, w, s)
    ensures |s.calls| == |w.specs| && |s.windows| == 1 && cfg.batch > 0 && cfg.engines == 1
  {
  }

  lemma {:induction false} ReleasePlain(cfg: Config, w: Workload, s: Sim, k: nat)
    requires Setting(cfg, w) && Shape(cfg, w, s) && PlainCalls(w, s.calls) && k <= |s.calls|
    ensures var a := ReleaseUpTo(cfg, w, s, k);
      PlainCalls(w, a.calls) && forall i :: 0 <= i < |s.calls| ==> LeftOf(a.calls[i]) == LeftOf(s.calls[i])
  {
    hide Ranked, Earliest, CriticalPathService, AssignQueue, PriorityOf;
    if k > 0 {
      ReleasePlain(cfg, w, s, k - 1);
      var mid := ReleaseUpTo(cfg, w, s, k - 1);
      assert PlainCall(w, mid.calls[k - 1], k - 1);
    }
  }

  lemma {:induction false} ReleaseDue(cfg: Config, w: Workload, s: Sim, k: nat)
    requires Setting(cfg, w) && Inv(cfg, w, s) && s.time <= cfg.maxTime && k <= |s.calls| && |s.windows| > 0 && Due(s)
    ensures var a := ReleaseUpTo(cfg, w, s, k); |a.windows| > 0 && Due(a)
  {
    hide Inv, Shape, Setting, Sel, Release, ReleaseUpTo, RunningOn;
    InvShape(cfg, w, s);
    ReleaseUnroll(cfg, w, s, k);
    SettingShape(cfg, w, s);
    if k > 0 {
      ReleaseDue(cfg, w, s, k - 1);
      ReleaseUpToInv(cfg, w, s, k - 1);
      var mid := ReleaseUpTo(cfg, w, s, k - 1);
      InvShape(cfg, w, mid);
      SettingShape(cfg, w, mid);
      ReleaseRunning(cfg, w, mid, k - 1);
    }
  }

  lemma ReleaseRunning(cfg: Config, w: Workload, s: Sim, i: nat)
    requires Inv(cfg, w, s) && i < |s.calls|
    ensures RunningOn(Release(cfg, w, s, i).calls, 0) == RunningOn(s.calls, 0)
    ensures Release(cfg, w, s, i).windows == s.windows
  {
    hide Sel, ValidWorkload, ValidConfig, AllBooks, AllAfterParents, AllPlaces;
    ReleaseSlots(cfg, w, s, i);
    var r := Release(cfg, w, s, i);
    SelSame(s.calls, r.calls, s.counter, r.counter, 0, {Running});
  }

  ghost predicate ParentsDone(w: Workload, calls: seq<Call>, i: nat)
    requires i < |w.specs|
  {
    forall p :: p in w.specs[i].parents ==> p < |calls| && calls[p].status == Finished
  }

  /** With no arrivals or delays outstanding, every unfinished call whose parents are done is released at once. */
  lemma ReadyIsLive(cfg: Config, w: Workload, s: Sim)
    requires Setting(cfg, w) && Inv(cfg, w, s) && 0 <= s.time && |s.calls| == |w.specs|
    ensures var a := Released(cfg, w, s);
      && |a.calls| == |s.calls|
      && (forall i :: 0 <= i < |s.calls| && s.calls[i].status != Finished && ParentsDone(w, s.calls, i) ==>
         Live(a.calls[i]))
  {
    hide AllSlots, Stamps, AllAfterParents, AllPlaces, ReleaseUpTo;
    ReleaseUpToCalls(cfg, w, s, |s.calls|);
    FinishedNow(cfg, w, s);
    BooksStart(s.calls, s.time, 0);
    var a := Released(cfg, w, s);
    forall i | 0 <= i < |s.calls| && s.calls[i].status != Finished && ParentsDone(w, s.calls, i)
      ensures Live(a.calls[i])
    {
      if s.calls[i].status == Pending {
        assert ParentsFinished(w, s.calls, i);
        BaseIsZero(cfg, w, i);
        assert Earliest(cfg, w, s.calls, i) <= s.time;
      }
    }
  }

  lemma BaseIsZero(cfg: Config, w: Workload, i: nat)
    requires Setting(cfg, w) && i < |w.specs|
    ensures w.specs[i].pid < |w.arrivals| && BaseTime(w, w.specs[i]) == 0 && w.specs[i].releaseDelay == 0
  {
  }

  /** Scheduling fills the batch from the line, at no cost. */
  lemma SchedulePlain(cfg: Config, w: Workload, a: Sim)
    requires Setting(cfg, w) && Inv(cfg, w, a) && |a.windows| == 1 && |a.calls| == |w.specs| && Due(a)
      && PlainCalls(w, a.calls)
    ensures var b := ScheduleEngine(cfg, w, a, 0);
      && |b.calls| == |a.calls| && PlainCalls(w, b.calls) && b.windows == [1]
      && (forall i :: 0 <= i < |a.calls| ==>
         LeftOf(b.calls[i]) == LeftOf(a.calls[i]) && (Live(b.calls[i]) <==> Live(a.calls[i])))
      && RunningOn(b.calls, 0) == Line(b.calls, 0)[..RunCount(cfg, Line(b.calls, 0))]
  {
    hide Sel, Stamps, AllBooks, AllSlots, AllPlaces, AllAfterParents, Selected, Refreshed, RefreshedKeys,
      ScheduleEngine, ValidConfig, ValidWorkload, Ranked, SchedulingKeeps;
    Rescheduled(cfg, w, a, 0);
    RefreshStart(cfg, w, a, 0);
    var b, refreshed := ScheduleEngine(cfg, w, a, 0), Refreshed(cfg, w, a.calls, a.entries, 0, a.counter);
    SelectLists(cfg, refreshed, b.counter, 0, a.time);
    assert b.windows == [1];
    forall i | 0 <= i < |a.calls|
      ensures PlainCall(w, b.calls[i], i) && LeftOf(b.calls[i]) == LeftOf(a.calls[i])
        && (Live(b.calls[i]) <==> Live(a.calls[i]))
    {
      assert PlainCall(w, a.calls[i], i);
      PlainSelect(cfg, w, a.calls, refreshed, 0, a.time, i);
    }
  }

  lemma PlainSelect(cfg: Config, w: Workload, calls: seq<Call>, refreshed: seq<Call>, e: nat, time: int, i: nat)
    requires |calls| == |refreshed| == |w.specs| && i < |calls| && PlainCall(w, calls[i], i)
    requires forall v :: cfg.penalty(v) == 0
    requires SchedulingKeeps(calls[i], refreshed[i]) && refreshed[i].status == calls[i].status
      && refreshed[i].swapLeft == calls[i].swapLeft
    ensures var c := Selected(cfg, refreshed, e, time)[i];
      PlainCall(w, c, i) && LeftOf(c) == LeftOf(calls[i]) && (Live(c) <==> Live(calls[i]))
  {
    hide Sel, Selected, Victims;
    VictimsAreLive(cfg, refreshed, e);
    var line := Line(refreshed, e);
    assert i in line[..RunCount(cfg, line)] || i in line[RunCount(cfg, line)..HoldCount(cfg, line)] ==> i in line;
  }

  /** In a tick every running call executes, and nothing else changes its remaining time. */
  lemma TickPlain(cfg: Config, w: Workload, b: Sim)
    requires Setting(cfg, w) && Inv(cfg, w, b) && |b.calls| == |w.specs| && PlainCalls(w, b.calls)
    ensures var c := TickEngine(cfg, w, b, 0);
      && |c.calls| == |b.calls| && PlainCalls(w, c.calls)
      && (forall i :: 0 <= i < |b.calls| ==>
         LeftOf(c.calls[i]) == LeftOf(b.calls[i]) - if i in RunningOn(b.calls, 0) then 1 else 0)
  {
    hide Sel, Stamps, AllSlots, AllPlaces, AllAfterParents, ValidConfig, ValidWorkload, Ranked, TickEngine, PlainCall,
      LeftOf, Live;
    var c := TickEngine(cfg, w, b, 0);
    forall i | 0 <= i < |b.calls|
      ensures PlainCall(w, c.calls[i], i)
      ensures LeftOf(c.calls[i]) == LeftOf(b.calls[i]) - if i in RunningOn(b.calls, 0) then 1 else 0
    {
      TickCallKeeps(cfg, w, b, 0, i);
      assert PlainCall(w, b.calls[i], i) && Books(b.calls[i], b.time);
      TickPlainCall(w, b.calls[i], c.calls[i], i, b.time);
    }
  }

  lemma TickPlainCall(w: Workload, c: Call, c': Call, i: nat, time: int)
    requires i < |w.specs| && PlainCall(w, c, i) && Books(c, time) && if LiveOn(c, 0) then TicksTo(c, c', time)
      else c' == c
    ensures PlainCall(w, c', i) && LeftOf(c') == LeftOf(c) - if c.status == Running && c.engine == 0 then 1 else 0
  {
  }

  /** The tick uses up the window of one step, unless nothing runs. */
  lemma TickWindow(cfg: Config, w: Workload, b: Sim)
    requires Setting(cfg, w) && Inv(cfg, w, b) && b.windows == [1] && |b.calls| == |w.specs| && PlainCalls(w, b.calls)
    ensures var c := TickEngine(cfg, w, b, 0); |c.windows| == 1 && (RunningOn(b.calls, 0) != [] ==> c.windows[0] == 0)
  {
    hide Sel, Stamps, AllSlots, AllPlaces, AllAfterParents, ValidConfig, ValidWorkload, Ranked, Ticked, Fill, Settle,
      Rows;
    if RunningOn(b.calls, 0) != [] {
      var i := RunningOn(b.calls, 0)[0];
      assert i in RunningOn(b.calls, 0);
      assert PlainCall(w, b.calls[i], i) && Executes(b.calls[i]);
    }
  }

  /** What is left is positive exactly for unfinished calls. */
  lemma LeftPositive(cfg: Config, w: Workload, s: Sim)
    requires Setting(cfg, w) && Inv(cfg, w, s) && |s.calls| == |w.specs| && PlainCalls(w, s.calls)
    ensures forall i :: 0 <= i < |s.calls| ==>
      LeftOf(s.calls[i]) >= 0 && (LeftOf(s.calls[i]) == 0 <==> s.calls[i].status == Finished)
  {
    hide AllSlots, Stamps, AllAfterParents, AllPlaces, ValidConfig, Ranked;
    forall i | 0 <= i < |s.calls|
      ensures LeftOf(s.calls[i]) >= 0 && (LeftOf(s.calls[i]) == 0 <==> s.calls[i].status == Finished)
    {
      assert Books(s.calls[i], s.time) && PlainCall(w, s.calls[i], i);
    }
  }

  lemma SomethingLive(cfg: Config, w: Workload, s: Sim)
    requires Setting(cfg, w) && Inv(cfg, w, s) && 0 <= s.time <= cfg.maxTime && |s.calls| == |w.specs|
      && !AllFinished(s)
    ensures var a := Released(cfg, w, s); exists i :: 0 <= i < |a.calls| && Live(a.calls[i])
  {
    hide AllSlots, Stamps, AllAfterParents, AllPlaces, AllBooks, ReleaseUpTo, ValidConfig, Earliest, Ranked, Live;
    var a := Released(cfg, w, s);
    ReleaseAgain(cfg, w, s);
    ReleaseUpToInv(cfg, w, s, |s.calls|);
    BooksStart(s.calls, s.time, 0);
    BooksStart(a.calls, a.time, 0);
    ReadyIsLive(cfg, w, s);
    var rank: seq<nat> :| Ranked(w, rank);
    ParentsInRange(cfg, w);
    hide Inv, Shape, Released, Setting, ValidWorkload, ParentsDone;
    SomeoneReady(w, s.calls, a.calls, rank);
  }

  /** If every ready call went live and something is unfinished, something is live. */
  lemma SomeoneReady(w: Workload, was: seq<Call>, now: seq<Call>, rank: seq<nat>)
    requires Ranked(w, rank) && |was| == |now| == |w.specs|
    requires forall i, k :: 0 <= i < |w.specs| && 0 <= k < |w.specs[i].parents| ==> w.specs[i].parents[k] < |w.specs|
    requires forall i :: 0 <= i < |was| ==>
      (was[i].finish.Some? <==> was[i].status == Finished) && now[i].finish == was[i].finish
    requires forall i :: 0 <= i < |was| ==> (now[i].finish.Some? <==> now[i].status == Finished)
    requires forall i :: 0 <= i < |was| && was[i].status != Finished && ParentsDone(w, was, i) ==> Live(now[i])
    requires exists i :: 0 <= i < |was| && was[i].status != Finished
    ensures exists i :: 0 <= i < |now| && Live(now[i])
  {
    hide Ranked;
    if !exists i :: 0 <= i < |now| && Live(now[i]) {
      var i :| 0 <= i < |was| && was[i].status != Finished;
      var j := ReadyBelow(w, now, rank, i);
      assert ParentsDone(w, was, j);
    }
  }

  /** In this setting the clock never skips. */
  lemma NoSkip(cfg: Config, w: Workload, c: Sim)
    requires Setting(cfg, w) && Midway(cfg, w, c, 1) && 0 <= c.time
    ensures NextTime(cfg, w, c, c.time + 1) == c.time + 1
  {
    hide AllSlots, Stamps, AllAfterParents, AllPlaces, AllBooks, ValidConfig, Earliest, NextRelease;
    BooksStart(c.calls, c.time, 1);
    if IdleWithFutureWork(cfg, w, c, c.time + 1) {
      var i :| 0 <= i < |c.calls| && PendingAt(c, i) && Earliest(cfg, w, c.calls, i) > c.time + 1;
      var rank: seq<nat> :| Ranked(w, rank);
      var j := ReadyBelow(w, c.calls, rank, i);
      assert PendingAt(c, j);
      FinishedBy(c.calls, c.time, 1, c.time + 1);
      BaseIsZero(cfg, w, j);
      EarliestBound(cfg, w, c.calls, j, c.time + 1);
      BaseZero(cfg, w, |w.specs|);
    }
  }

  lemma {:induction false} BaseZero(cfg: Config, w: Workload, k: nat)
    requires Setting(cfg, w) && k <= |w.specs| && forall i :: 0 <= i < |w.specs| ==> w.specs[i].pid < |w.arrivals|
    ensures LatestBase(w, k) == 0
  {
    hide Setting;
    if k > 0 {
      BaseZero(cfg, w, k - 1);
      BaseIsZero(cfg, w, k - 1);
    }
  }

  /** A tick either fills every slot or runs every ready call; both pay for the tick. */
  lemma PayTick(w: Workload, batch: nat, was: seq<int>, now: seq<int>, run: seq<nat>, x: int) returns (x': int)
    requires |was| == |now| == |w.specs| && ChainsWithin(w, was, x)
    requires forall i, k :: 0 <= i < |w.specs| && 0 <= k < |w.specs[i].parents| ==> w.specs[i].parents[k] < |w.specs|
    requires NoDup(run) && run != [] && |run| <= batch && forall i :: i in run ==> i < |was|
    requires forall i :: 0 <= i < |was| ==> now[i] == was[i] - (if i in run then 1 else 0) && now[i] >= 0
    requires |run| == batch || forall i ::
      0 <= i < |was| && was[i] > 0 && (forall p :: p in w.specs[i].parents ==> was[p] == 0) ==> i in run
    ensures ChainsWithin(w, now, x')
    ensures batch + Sum(now) + (batch - 1) * x' <= Sum(was) + (batch - 1) * x && Sum(was) <= Sum(now) + batch
  {
    hide Weigh;
    SumLower(was, now, run);
    if |run| == batch {
      x' := x;
      forall chain | IsChain(w, chain) ensures Weigh(now, chain) <= x {
        WeighMonotone(now, was, chain);
      }
    } else {
      x' := x - 1;
      assert run[0] in run;
      ChainsShrink(w, was, now, x);
      assert (batch - 1) * (x - 1) == (batch - 1) * x - (batch - 1);
    }
  }

  lemma GrahamTick(cfg: Config, w: Workload, s: Sim, b: Sim, x: int) returns (x': int)
    requires Setting(cfg, w) && Filled(cfg, w, s, b) && Inv(cfg, w, s) && PlainCalls(w, s.calls)
      && ChainsWithin(w, Left(s.calls), x)
    ensures var c := TickEngine(cfg, w, b, 0);
      && |c.calls| == |s.calls|
      && ChainsWithin(w, Left(c.calls), x')
      && cfg.batch + Sum(Left(c.calls)) + (cfg.batch - 1) * x' <= Sum(Left(s.calls)) + (cfg.batch - 1) * x
      && Sum(Left(s.calls)) <= Sum(Left(c.calls)) + cfg.batch
  {
    hide Inv, Shape, Setting, TickEngine, PlainCalls, LeftOf, ChainsWithin, ParentsDone, Live, RunningOn, Line;
    InvShape(cfg, w, b);
    SettingShape(cfg, w, b);
    var c, run := TickEngine(cfg, w, b, 0), RunningOn(b.calls, 0);
    TickPlain(cfg, w, b);
    NonNegativeAfter(cfg, w, b);
    BatchFacts(cfg, w, s, b);
    ParentsInRange(cfg, w);
    assert Left(b.calls) == Left(s.calls);
    if |run| != cfg.batch {
      AllReadyRun(cfg, w, s, b);
    }
    hide Filled, Sum;
    x' := PayTick(w, cfg.batch, Left(s.calls), Left(c.calls), run, x);
  }

  /** The batch is full, or every live call is on it. */
  lemma BatchFacts(cfg: Config, w: Workload, s: Sim, b: Sim)
    requires Setting(cfg, w) && Filled(cfg, w, s, b) && cfg.batch > 0
    ensures var run := RunningOn(b.calls, 0);
      && NoDup(run) && run != [] && |run| <= cfg.batch && (forall i :: i in run ==> i < |b.calls|)
      && (|run| != cfg.batch ==> forall i :: 0 <= i < |b.calls| && Live(b.calls[i]) ==> i in run)
  {
    hide Sel, AllSlots, AllAfterParents, AllBooks, AllPlaces, Stamps, Setting, PlainCalls, Live, LeftOf, ParentsDone;
    LineIsLive(cfg, w, b);
    SelFacts(b.calls, b.counter, 0, {Running});
    SomeoneRuns(b.calls, Line(b.calls, 0));
  }

  /** While the batch is not full, every ready call runs. */
  lemma AllReadyRun(cfg: Config, w: Workload, s: Sim, b: Sim)
    requires Setting(cfg, w) && Filled(cfg, w, s, b) && Inv(cfg, w, s) && PlainCalls(w, s.calls) && cfg.batch > 0
    requires |RunningOn(b.calls, 0)| != cfg.batch
    requires forall i, k ::
      0 <= i < |w.specs| && 0 <= k < |w.specs[i].parents| ==> w.specs[i].parents[k] < |w.specs|
    ensures forall i ::
      0 <= i < |s.calls| && Left(s.calls)[i] > 0 && (forall p :: p in w.specs[i].parents ==> Left(s.calls)[p] == 0) ==>
        i in RunningOn(b.calls, 0)
  {
    hide Inv, Shape, Setting, PlainCalls, LeftOf, ParentsDone, Live, RunningOn, Line;
    BatchFacts(cfg, w, s, b);
    forall i | 0 <= i < |s.calls| && Left(s.calls)[i] > 0
      && (forall p :: p in w.specs[i].parents ==> Left(s.calls)[p] == 0)
      ensures i in RunningOn(b.calls, 0)
    {
      ReadyRuns(cfg, w, s, i);
    }
  }

  /** A call with work left whose parents have none is unfinished and ready. */
  lemma ReadyRuns(cfg: Config, w: Workload, s: Sim, i: nat)
    requires Setting(cfg, w) && Inv(cfg, w, s) && |s.calls| == |w.specs| && PlainCalls(w, s.calls) && i < |s.calls|
      && LeftOf(s.calls[i]) > 0
    requires forall p :: p in w.specs[i].parents ==> p < |w.specs| && LeftOf(s.calls[p]) == 0
    ensures s.calls[i].status != Finished && ParentsDone(w, s.calls, i)
  {
    hide Inv, Setting, PlainCalls, LeftOf;
    LeftPositive(cfg, w, s);
  }

  lemma NonNegativeAfter(cfg: Config, w: Workload, b: Sim)
    requires Setting(cfg, w) && Inv(cfg, w, b) && b.windows == [1] && |b.calls| == |w.specs| && PlainCalls(w, b.calls)
    ensures var c := TickEngine(cfg, w, b, 0); forall i :: 0 <= i < |c.calls| ==> LeftOf(c.calls[i]) >= 0
  {
    hide Sel, AllSlots, AllAfterParents, AllBooks, AllPlaces, Stamps, TickEngine, ValidConfig, ValidWorkload, Ranked,
      PlainCalls, Setting, LeftOf;
    TickPlain(cfg, w, b);
    LeftPositive(cfg, w, b);
    SettingShape(cfg, w, b);
    var c, run := TickEngine(cfg, w, b, 0), RunningOn(b.calls, 0);
    forall i | 0 <= i < |c.calls| ensures LeftOf(c.calls[i]) >= 0 {
      if i in run { assert b.calls[i].status == Running; }
    }
  }

  lemma ParentsInRange(cfg: Config, w: Workload)
    requires Setting(cfg, w)
    ensures forall i, k :: 0 <= i < |w.specs| && 0 <= k < |w.specs[i].parents| ==> w.specs[i].parents[k] < |w.specs|
  {
  }

  lemma LineIsLive(cfg: Config, w: Workload, b: Sim)
    requires Setting(cfg, w) && |b.calls| == |w.specs| && PlainCalls(w, b.calls)
    ensures forall i :: i in Line(b.calls, 0) <==> 0 <= i < |b.calls| && Live(b.calls[i])
  {
    hide Sel;
    forall i | 0 <= i < |b.calls| && Live(b.calls[i]) ensures i in Line(b.calls, 0) {
      assert PlainCall(w, b.calls[i], i);
    }
  }

  lemma SomeoneRuns(calls: seq<Call>, line: seq<nat>)
    requires forall i :: i in line <==> 0 <= i < |calls| && Live(calls[i])
    requires exists i :: 0 <= i < |calls| && Live(calls[i])
    ensures line != []
  {
  }

  ghost predicate OnTrack(cfg: Config, w: Workload, s: Sim) {
    && Inv(cfg, w, s) && |s.calls| == |w.specs| && |s.windows| == 1 && 0 <= s.time
    && PlainCalls(w, s.calls) && Due(s)
  }

  /** The state between scheduling and execution: every ready call is live and the batch is filled from the line. */
  ghost predicate Filled(cfg: Config, w: Workload, s: Sim, b: Sim) {
    && Inv(cfg, w, b) && b.windows == [1] && |b.calls| == |w.specs| == |s.calls| && b.time == s.time
    && PlainCalls(w, b.calls)
    && (forall i :: 0 <= i < |s.calls| ==> LeftOf(b.calls[i]) == LeftOf(s.calls[i]))
    && (forall i :: 0 <= i < |s.calls| && s.calls[i].status != Finished && ParentsDone(w, s.calls, i) ==>
       Live(b.calls[i]))
    && (exists i :: 0 <= i < |b.calls| && Live(b.calls[i]))
    && RunningOn(b.calls, 0) == Line(b.calls, 0)[..RunCount(cfg, Line(b.calls, 0))]
  }

  lemma GrahamSchedule(cfg: Config, w: Workload, s: Sim) returns (b: Sim)
    requires Setting(cfg, w) && OnTrack(cfg, w, s) && s.time <= cfg.maxTime && !AllFinished(s)
    ensures Filled(cfg, w, s, b) && Shape(cfg, w, s) && Shape(cfg, w, b) && cfg.engines == 1
    ensures TickUpTo(cfg, w, ScheduleUpTo(cfg, w, Released(cfg, w, s), cfg.engines), cfg.engines)
      == TickEngine(cfg, w, b, 0)
  {
    hide Inv, Shape, Setting, ReleaseUpTo, ScheduleEngine, TickEngine, PlainCalls, Due, Sel, LeftOf, AllFinished,
      ScheduleUpTo, TickUpTo, ParentsDone, Live;
    InvShape(cfg, w, s);
    SettingShape(cfg, w, s);
    ReleaseUpToInv(cfg, w, s, |s.calls|);
    var a := Released(cfg, w, s);
    InvShape(cfg, w, a);
    SettingShape(cfg, w, a);
    ReleasePlain(cfg, w, s, |s.calls|);
    ReleaseDue(cfg, w, s, |s.calls|);
    SomethingLive(cfg, w, s);
    ReadyIsLive(cfg, w, s);
    ScheduleOnce(cfg, w, a);
    ScheduleInv(cfg, w, a, 0);
    SchedulePlain(cfg, w, a);
    b := ScheduleEngine(cfg, w, a, 0);
    InvShape(cfg, w, b);
    TickOnce(cfg, w, b);
  }

  lemma GrahamStep(cfg: Config, w: Workload, s: Sim, x: int) returns (x': int)
    requires Setting(cfg, w) && OnTrack(cfg, w, s) && s.time <= cfg.maxTime && !AllFinished(s)
    requires ChainsWithin(w, Left(s.calls), x)
    ensures Shape(cfg, w, s)
    ensures var r := Step(cfg, w, s);
      && OnTrack(cfg, w, r) && r.time == s.time + 1
      && ChainsWithin(w, Left(r.calls), x')
      && cfg.batch + Sum(Left(r.calls)) + (cfg.batch - 1) * x' <= Sum(Left(s.calls)) + (cfg.batch - 1) * x
      && Sum(Left(s.calls)) <= Sum(Left(r.calls)) + cfg.batch
  {
    hide Inv, Shape, Setting, ReleaseUpTo, ScheduleEngine, TickEngine, PlainCalls, Due, Sel, ChainsWithin, NextTime,
      LeftOf,
      ScheduleUpTo, TickUpTo, AllFinished, ParentsDone, Live;
    var b := GrahamSchedule(cfg, w, s);
    InvMidway(cfg, w, b);
    TickInv(cfg, w, b, 0);
    TickPlain(cfg, w, b);
    TickWindow(cfg, w, b);
    x' := GrahamTick(cfg, w, s, b, x);
    var c := TickEngine(cfg, w, b, 0);
    NoSkip(cfg, w, c);
    StepResult(cfg, w, s);
    StepInv(cfg, w, s);
    var r := Step(cfg, w, s);
    InvShape(cfg, w, r);
    SettingShape(cfg, w, r);
    BatchRuns(cfg, w, b);
    DueAgain(c, r);
  }

  lemma BatchRuns(cfg: Config, w: Workload, b: Sim)
    requires Setting(cfg, w) && |b.calls| == |w.specs| && PlainCalls(w, b.calls) && cfg.batch > 0
    requires exists i :: 0 <= i < |b.calls| && Live(b.calls[i])
    requires RunningOn(b.calls, 0) == Line(b.calls, 0)[..RunCount(cfg, Line(b.calls, 0))]
    ensures RunningOn(b.calls, 0) != []
  {
    hide Sel, Setting, PlainCalls;
    LineIsLive(cfg, w, b);
    SomeoneRuns(b.calls, Line(b.calls, 0));
  }

  lemma DueAgain(c: Sim, r: Sim)
    requires |c.windows| == 1 && r.windows == c.windows && r.calls == c.calls && c.windows[0] == 0
    ensures Due(r)
  {
  }

  lemma ScheduleOnce(cfg: Config, w: Workload, a: Sim)
    requires Shape(cfg, w, a) && cfg.engines == 1
    ensures ScheduleUpTo(cfg, w, a, 1) == ScheduleEngine(cfg, w, a, 0)
  {
    hide Shape, ScheduleEngine;
    assert ScheduleUpTo(cfg, w, a, 0) == a;
  }

  lemma TickOnce(cfg: Config, w: Workload, b: Sim)
    requires Shape(cfg, w, b) && cfg.engines == 1
    ensures TickUpTo(cfg, w, b, 1) == TickEngine(cfg, w, b, 0)
  {
    hide Shape, TickEngine;
    assert TickUpTo(cfg, w, b, 0) == b;
  }

  lemma RunStarts(cfg: Config, w: Workload)
    requires Setting(cfg, w)
    ensures OnTrack(cfg, w, Init(cfg, w)) && Init(cfg, w).time == 0
    ensures Left(Init(cfg, w).calls) == ModelTimes(w)
  {
    hide Ranked;
    InitInv(cfg, w);
    NobodyListed(Init(cfg, w).calls, 0, {Running});
  }

  /** The books of a run of `n` steps: time against work left and heaviest chain left. */
  lemma {:induction false} GrahamBooks(cfg: Config, w: Workload, n: nat, heaviest: int) returns (x: int)
    requires Setting(cfg, w) && ChainsWithin(w, ModelTimes(w), heaviest)
    ensures ValidWorkload(w) && ValidConfig(cfg, w)
    ensures var s := Reach(cfg, w, n);
      && OnTrack(cfg, w, s) && ChainsWithin(w, Left(s.calls), x)
      && cfg.batch * s.time + Sum(Left(s.calls)) + (cfg.batch - 1) * x <= Sum(ModelTimes(w))
         + (cfg.batch - 1) * heaviest
      && Sum(ModelTimes(w)) <= Sum(Left(s.calls)) + cfg.batch * s.time
  {
    hide ValidWorkload, ValidConfig, Step, AllFinished, OnTrack, Init, ChainsWithin;
    SettingValid(cfg, w);
    if n == 0 {
      x := heaviest;
      RunStarts(cfg, w);
    } else {
      x := GrahamBooks(cfg, w, n - 1, heaviest);
      var s := Reach(cfg, w, n - 1);
      if !AllFinished(s) && s.time <= cfg.maxTime {
        x := GrahamStep(cfg, w, s, x);
        assert cfg.batch * (s.time + 1) == cfg.batch * s.time + cfg.batch;
      }
    }
  }

  lemma SettingValid(cfg: Config, w: Workload)
    requires Setting(cfg, w)
    ensures ValidWorkload(w) && ValidConfig(cfg, w)
  {
  }

  /** Graham's bound: with batch size B, a finished run lasts at least a B-th of the total work, and B times its
      length is at most the total work plus B - 1 times the heaviest chain of the dependency graph. */
  lemma GrahamBound(cfg: Config, w: Workload, n: nat, heaviest: int)
    requires Setting(cfg, w) && ChainsWithin(w, ModelTimes(w), heaviest)
    ensures ValidWorkload(w) && ValidConfig(cfg, w)
    ensures AllFinished(Reach(cfg, w, n)) ==>
      var makespan := Reach(cfg, w, n).time;
      && Sum(ModelTimes(w)) <= cfg.batch * makespan
      && cfg.batch * makespan <= Sum(ModelTimes(w)) + (cfg.batch - 1) * heaviest
  {
    hide Setting, ValidWorkload, ValidConfig, Reach, Inv, PlainCalls, Due;
    SettingValid(cfg, w);
    var x := GrahamBooks(cfg, w, n, heaviest);
    var s := Reach(cfg, w, n);
    if AllFinished(s) {
      SumZero(Left(s.calls));
      SettingBatch(cfg, w);
      assert IsChain(w, [0]) && Weigh(Left(s.calls), [0]) == 0;
      assert (cfg.batch - 1) * x >= 0;
    }
  }

  lemma SettingBatch(cfg: Config, w: Workload)
    requires Setting(cfg, w)
    ensures cfg.batch > 0 && |w.specs| > 0
  {
  }
}
