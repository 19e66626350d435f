/** Levels over whole runs: quanta, demotion, anti-starvation promotion, and the start that promotion guarantees. */
module SimPromotions {
  import opened Sequences
  import opened Levels
  import opened SimModel
  import opened SimInvariant
  import opened SimTermination
  import opened SimSteps
  import opened SimPolicies
  import opened SimStarvation

  // ---- The schedule phase ---------------------------------------------------------------------

  lemma MovesFrom(cfg: Config, c: Call, entry: Entry, counter: nat, later: nat, c': Call)
    requires |cfg.quanta| > 0 && counter <= later && LevelMoves(cfg, c, entry, later, c')
    ensures LevelMoves(cfg, c, entry, counter, c')
  {
    hide Starved;
  }

  lemma SameReconsiders(a: Sim, b: Sim, e: nat)
    requires SameView(a, b, e)
    ensures Reconsiders(a, e) <==> Reconsiders(b, e)
  {
  }

  lemma BoundaryCounter(cfg: Config, w: Workload, s: Sim, e: nat)
    requires Inv(cfg, w, s) && Shape(cfg, w, s) && e < cfg.engines
    ensures ScheduleEngine(cfg, w, s, e).counter >= s.counter && ScheduleEngine(cfg, w, s, e).entries == s.entries
  {
    hide Inv, Shape, Refreshed, RefreshedKeys, Selected, Sel, Stamps, Fill, HopsOf;
    InvStart(cfg, w, s);
    ShapeSizes(cfg, w, s);
    RefreshStart(cfg, w, s, e);
    SlotsAt(cfg, s.calls, e);
    FillIdle(cfg, s.calls, e, s.time);
    RefreshedKeysFacts(cfg, w, s.calls, s.entries, e, s.counter);
  }

  /** The first `k` engines were scheduled: the others see nothing of it, and call `i` was moved if its own engine
      reconsidered. */
  ghost predicate Phased(cfg: Config, w: Workload, a: Sim, k: nat, i: nat, r: Sim)
    requires |cfg.quanta| > 0 && |a.calls| == |w.specs| && i < |a.calls| && w.specs[i].pid < |a.entries|
  {
    var e := a.calls[i].engine;
    && |r.calls| == |a.calls| && r.entries == a.entries && a.counter <= r.counter && r.calls[i].engine == e
    && (k <= e ==> SameView(a, r, e))
    && (k > e ==>
         if Reconsiders(a, e) then LevelMoves(cfg, a.calls[i], a.entries[w.specs[i].pid], a.counter, r.calls[i])
         else r.calls[i] == a.calls[i])
  }

  lemma PhaseStep(cfg: Config, w: Workload, a: Sim, mid: Sim, d: nat, i: nat)
    requires Inv(cfg, w, mid) && Shape(cfg, w, mid) && d < cfg.engines && |cfg.quanta| > 0
    requires |a.calls| == |w.specs| && i < |a.calls| && Live(a.calls[i]) && a.calls[i].engine < cfg.engines
    requires w.specs[i].pid < |a.entries| && Phased(cfg, w, a, d, i, mid)
    ensures Phased(cfg, w, a, d + 1, i, ScheduleEngine(cfg, w, mid, d))
  {
    hide Inv, Shape, LevelMoves, Reconsiders, ScheduleEngine, SchedulingKeeps, Sel, Stamps, AllSlots, AllPlaces;
    var e, r := a.calls[i].engine, ScheduleEngine(cfg, w, mid, d);
    ShapeSizes(cfg, w, mid);
    ShapeSizes(cfg, w, r);
    InvStart(cfg, w, mid);
    BoundaryCounter(cfg, w, mid, d);
    ScheduleKeeps(cfg, w, mid, d, i);
    KeepsEngine(mid.calls[i], r.calls[i]);
    if d < e {
      ScheduleView(cfg, w, mid, d, e);
      ViewTwice(a, mid, r, e);
    } else if d == e {
      PhaseOwn(cfg, w, a, mid, i);
    }
  }

  lemma KeepsEngine(c: Call, c': Call)
    requires SchedulingKeeps(c, c')
    ensures c'.engine == c.engine
  {
  }

  lemma PhaseOwn(cfg: Config, w: Workload, a: Sim, mid: Sim, i: nat)
    requires |a.calls| == |mid.calls| == |w.specs| && i < |a.calls| && Live(a.calls[i]) && |cfg.quanta| > 0
    requires a.calls[i].engine < cfg.engines && Inv(cfg, w, mid) && Shape(cfg, w, mid)
    requires mid.entries == a.entries && a.counter <= mid.counter && w.specs[i].pid < |a.entries|
    requires SameView(a, mid, a.calls[i].engine)
    ensures var e, r := a.calls[i].engine, ScheduleEngine(cfg, w, mid, a.calls[i].engine);
      && |r.calls| == |a.calls|
      && if Reconsiders(a, e) then LevelMoves(cfg, a.calls[i], a.entries[w.specs[i].pid], a.counter, r.calls[i])
         else r.calls[i] == a.calls[i]
  {
    hide Inv, Shape, LevelMoves, ScheduleEngine, Sel;
    var e := a.calls[i].engine;
    ShapeSizes(cfg, w, mid);
    ShapeSizes(cfg, w, ScheduleEngine(cfg, w, mid, e));
    SameReconsiders(a, mid, e);
    NobodyRuns(mid, e);
    hide Reconsiders;
    if Reconsiders(mid, e) {
      BoundaryMoves(cfg, w, mid, e, i);
      MovesFrom(cfg, a.calls[i], a.entries[w.specs[i].pid], a.counter, mid.counter,
        ScheduleEngine(cfg, w, mid, e).calls[i]);
    } else {
      FrozenView(cfg, w, mid, e);
    }
  }

  lemma {:induction false} PhaseMoves(cfg: Config, w: Workload, a: Sim, k: nat, i: nat)
    requires Inv(cfg, w, a) && Shape(cfg, w, a) && k <= cfg.engines
    requires |a.calls| == |w.specs| && i < |a.calls| && Live(a.calls[i]) && w.specs[i].pid < |a.entries|
    ensures |cfg.quanta| > 0 && a.calls[i].engine < cfg.engines
    ensures Phased(cfg, w, a, k, i, ScheduleUpTo(cfg, w, a, k))
  {
    hide *;
    ShapeSizes(cfg, w, a);
    PlacedEngine(cfg, w, a, i);
    ScheduleUnroll(cfg, w, a, k);
    if k == 0 {
      PhaseStarts(cfg, w, a, i);
    } else {
      PhaseMoves(cfg, w, a, k - 1, i);
      ScheduleUpToInv(cfg, w, a, k - 1);
      var mid := ScheduleUpTo(cfg, w, a, k - 1);
      InvShape(cfg, w, mid);
      PhaseStep(cfg, w, a, mid, k - 1, i);
    }
  }

  lemma PhaseStarts(cfg: Config, w: Workload, a: Sim, i: nat)
    requires |cfg.quanta| > 0 && |a.calls| == |w.specs| && i < |a.calls| && w.specs[i].pid < |a.entries|
    requires a.calls[i].engine < |a.windows|
    ensures Phased(cfg, w, a, 0, i, a)
  {
    hide LevelMoves, Reconsiders;
    ViewSelf(a, a.calls[i].engine);
  }

  // ---- The execute phase ----------------------------------------------------------------------

  /** One tick of a live call at `time`: it serves a swap tick, a scheduler tick or a model tick when it runs, and waits
      otherwise. Model ticks use up the quantum and fill the run window, waiting ticks fill the waiting window. */
  ghost predicate Advances(c: Call, c': Call, time: int) {
    var runs, swaps := c.status == Running, c.status == Running && c.swapLeft != 0;
    var prepares := runs && !swaps && c.schedLeft != 0;
    var executes := runs && !swaps && !prepares;
    && c'.engine == c.engine && c'.queue == c.queue && c'.order == c.order && c'.model == c.model
    && c.swapLeft - c'.swapLeft == (if swaps then 1 else 0) && c'.swap == c.swap
    && c.schedLeft - c'.schedLeft == (if prepares then 1 else 0) && c'.sched == c.sched
    && c.remaining - c'.remaining == (if executes then 1 else 0)
    && c'.executed - c.executed == (if executes then 1 else 0)
    && c'.runWindow - c.runWindow == (if executes then 1 else 0)
    && c.quantum - c'.quantum == (if executes then 1 else 0)
    && c'.wait - c.wait == (if runs then 0 else 1) && c'.waitWindow - c.waitWindow == (if runs then 0 else 1)
    && (c'.status == Finished <==> executes && c.remaining <= 1)
    && (c'.status == Finished ==> c'.finish == Some(time + 1)) && (c'.status != Finished ==> c'.finish == c.finish)
    && (runs ==> c'.status in {Running, Finished} && c'.start == c.start)
    && (!runs ==> c'.status == c.status || (c.status == Prefetched && c'.status == Running))
    && (!runs && c'.status == c.status ==> c'.start == c.start)
    && (!runs && c'.status == Running ==> c'.start == if c.start.None? then Some(time + 1) else c.start)
  }

  lemma TickAdvances(c: Call, c': Call, time: int)
    requires Live(c) && TicksTo(c, c', time)
    ensures Advances(c, c', time)
  {
  }

  /** In a tick every live call advances once, whatever its engine. */
  lemma {:induction false} PhaseAdvances(cfg: Config, w: Workload, s: Sim, k: nat, i: nat)
    requires Inv(cfg, w, s) && Shape(cfg, w, s) && k <= cfg.engines && i < |s.calls| && Live(s.calls[i])
    ensures var r := TickUpTo(cfg, w, s, k);
      && |r.calls| == |s.calls| && r.time == s.time
      && (if k > s.calls[i].engine then Advances(s.calls[i], r.calls[i], s.time) else r.calls[i] == s.calls[i])
  {
    hide *;
    ShapeSizes(cfg, w, s);
    TickUnroll(cfg, w, s, k);
    if k > 0 {
      PhaseAdvances(cfg, w, s, k - 1, i);
      TickUpToInv(cfg, w, s, k - 1);
      var mid := TickUpTo(cfg, w, s, k - 1);
      ShapeSizes(cfg, w, mid);
      ShapeSizes(cfg, w, TickEngine(cfg, w, mid, k - 1));
      TickInv(cfg, w, mid, k - 1);
      TickCallKeeps(cfg, w, mid, k - 1, i);
      AdvanceOnce(s.calls[i], mid.calls[i], TickEngine(cfg, w, mid, k - 1).calls[i], k - 1, s.time);
    }
  }

  lemma AdvanceOnce(c: Call, m: Call, c': Call, d: nat, time: int)
    requires Live(c) && (if d > c.engine then Advances(c, m, time) else m == c)
    requires if LiveOn(m, d) then TicksTo(m, c', time) else c' == m
    ensures if d + 1 > c.engine then Advances(c, c', time) else c' == c
  {
    hide TicksTo;
    if d == c.engine {
      TickAdvances(c, c', time);
    }
  }

  // ---- Whole steps and runs ----------------------------------------------------------------------

  /** Call `i` in one step of a run: before the schedule phase, after it, and after the tick. */
  ghost predicate StepsLike(cfg: Config, w: Workload, s: Sim, i: nat, c: Call, placed: Call, c': Call)
    requires |cfg.quanta| > 0 && |s.calls| == |w.specs| && i < |s.calls| && w.specs[i].pid < |s.entries|
  {
    && (if Reconsiders(s, c.engine) then LevelMoves(cfg, c, s.entries[w.specs[i].pid], s.counter, placed)
       else placed == c)
    && Live(placed) && Advances(placed, c', s.time)
  }

  /** Every live call of every state of every run moves between levels exactly as its spent quantum and its waiting
      demand, and only when its engine reconsiders, and then advances by one tick. */
  lemma LevelsInRun(cfg: Config, w: Workload, n: nat, i: nat) returns (placed: Call)
    requires ValidWorkload(w) && ValidConfig(cfg, w) && i < |w.specs| && Reach(cfg, w, n).time <= cfg.maxTime
    requires i < |Reach(cfg, w, n).calls| && Live(Reach(cfg, w, n).calls[i])
    ensures var s, r := Reach(cfg, w, n), Reach(cfg, w, n + 1);
      && |cfg.quanta| > 0 && |s.calls| == |w.specs| == |r.calls| && w.specs[i].pid < |s.entries|
      && StepsLike(cfg, w, s, i, s.calls[i], placed, r.calls[i])
  {
    hide Reach, Inv, Shape, Step, StepsLike;
    ReachUnroll(cfg, w, n + 1);
    ReachInv(cfg, w, n);
    placed := StepLevels(cfg, w, Reach(cfg, w, n), i);
  }

  lemma {:induction false} ReleaseCounter(cfg: Config, w: Workload, s: Sim, k: nat)
    requires Shape(cfg, w, s) && k <= |s.calls|
    ensures ReleaseUpTo(cfg, w, s, k).counter >= s.counter
  {
    hide Shape, ReleaseUpTo, Earliest, Admitted;
    ReleaseUnroll(cfg, w, s, k);
    if k > 0 {
      ReleaseCounter(cfg, w, s, k - 1);
      ShapeSizes(cfg, w, s);
      ShapeSizes(cfg, w, ReleaseUpTo(cfg, w, s, k - 1));
    }
  }

  /** A release changes neither a live call nor whether its engine reconsiders. */
  lemma ReleaseLeaves(cfg: Config, w: Workload, s: Sim, i: nat)
    requires Shape(cfg, w, s) && i < |s.calls| && Live(s.calls[i])
    ensures var a := Released(cfg, w, s);
      && |a.calls| == |s.calls| && a.calls[i] == s.calls[i] && a.entries == s.entries && a.time == s.time
      && a.counter >= s.counter && (Reconsiders(a, s.calls[i].engine) <==> Reconsiders(s, s.calls[i].engine))
  {
    hide Shape, ReleaseUpTo, Earliest;
    ReleasedIs(cfg, w, s);
    ReleasedSize(cfg, w, s, |s.calls|);
    ReleaseUpToCalls(cfg, w, s, |s.calls|);
    ReleaseCounter(cfg, w, s, |s.calls|);
  }

  lemma StepLevels(cfg: Config, w: Workload, s: Sim, i: nat) returns (placed: Call)
    requires Inv(cfg, w, s) && Shape(cfg, w, s) && s.time <= cfg.maxTime && i < |s.calls| && Live(s.calls[i])
    ensures |cfg.quanta| > 0 && |s.calls| == |w.specs| == |Step(cfg, w, s).calls| && w.specs[i].pid < |s.entries|
    ensures StepsLike(cfg, w, s, i, s.calls[i], placed, Step(cfg, w, s).calls[i])
  {
    hide *;
    ShapeSizes(cfg, w, s);
    ShapeSizes(cfg, w, Step(cfg, w, s));
    StepResult(cfg, w, s);
    ReleaseLeaves(cfg, w, s, i);
    ReleasedIs(cfg, w, s);
    ReleaseUpToInv(cfg, w, s, |s.calls|);
    var a := Released(cfg, w, s);
    InvShape(cfg, w, a);
    PhaseMoves(cfg, w, a, cfg.engines, i);
    ScheduleUpToInv(cfg, w, a, cfg.engines);
    var b := ScheduleUpTo(cfg, w, a, cfg.engines);
    InvShape(cfg, w, b);
    ScheduleUpToStatus(cfg, w, a, cfg.engines);
    PhaseAdvances(cfg, w, b, cfg.engines, i);
    PhasedEngine(cfg, w, a, i, b);
    placed := b.calls[i];
    StepJoins(cfg, w, s, a, b, i, Step(cfg, w, s).calls[i]);
  }

  lemma PhasedEngine(cfg: Config, w: Workload, a: Sim, i: nat, b: Sim)
    requires |cfg.quanta| > 0 && |a.calls| == |w.specs| && i < |a.calls| && w.specs[i].pid < |a.entries|
    requires Phased(cfg, w, a, cfg.engines, i, b)
    ensures |b.calls| == |a.calls| && b.calls[i].engine == a.calls[i].engine
  {
  }

  lemma StepJoins(cfg: Config, w: Workload, s: Sim, a: Sim, b: Sim, i: nat, c': Call)
    requires |cfg.quanta| > 0 && |s.calls| == |a.calls| == |w.specs| == |b.calls| && i < |s.calls|
      && w.specs[i].pid < |s.entries|
    requires a.calls[i] == s.calls[i] && a.entries == s.entries && a.counter >= s.counter
    requires Reconsiders(a, s.calls[i].engine) <==> Reconsiders(s, s.calls[i].engine)
    requires a.calls[i].engine < cfg.engines && Phased(cfg, w, a, cfg.engines, i, b)
    requires Live(b.calls[i]) && Advances(b.calls[i], c', s.time)
    ensures StepsLike(cfg, w, s, i, s.calls[i], b.calls[i], c')
  {
    hide LevelMoves, Advances, Reconsiders;
    if Reconsiders(a, s.calls[i].engine) {
      MovesFrom(cfg, s.calls[i], s.entries[w.specs[i].pid], s.counter, a.counter, b.calls[i]);
    }
  }

  /** A call below the first level whose waiting has reached `beta` times its service is on the first level after the
      next boundary of its engine; a level number falls only then; a spent quantum costs one level, and nothing else
      does. */
  lemma LevelRules(cfg: Config, w: Workload, n: nat, i: nat)
    requires ValidWorkload(w) && ValidConfig(cfg, w) && i < |w.specs| && Reach(cfg, w, n).time <= cfg.maxTime
    requires i < |Reach(cfg, w, n).calls| && Live(Reach(cfg, w, n).calls[i])
    requires cfg.policy in {Mlfq, Plas, Atlas, DagAtlas}
    ensures i < |Reach(cfg, w, n + 1).calls| && w.specs[i].pid < |Reach(cfg, w, n).entries|
    ensures var s, c, c' := Reach(cfg, w, n), Reach(cfg, w, n).calls[i], Reach(cfg, w, n + 1).calls[i];
      var boundary, starved := Reconsiders(s, c.engine), Starved(cfg, c, s.entries[w.specs[i].pid]);
      && (boundary && starved && c.queue > 0 ==> c'.queue == 0)
      && (c'.queue < c.queue ==> boundary && starved && c'.queue == 0)
      && (boundary && !starved && c.quantum <= 0 ==> c'.queue == Min(c.queue + 1, |cfg.quanta| - 1))
      && (c'.queue > c.queue ==> boundary && c.quantum <= 0 && c'.queue == c.queue + 1)
      && (c'.order != c.order ==> boundary && (starved || c.quantum <= 0) && c'.order > s.counter)
  {
    hide Reach, Starved, Reconsiders;
    var placed := LevelsInRun(cfg, w, n, i);
    ReachInv(cfg, w, n);
    PlacedLevel(cfg, w, Reach(cfg, w, n), i);
    hide Inv;
  }

  lemma PlacedLevel(cfg: Config, w: Workload, s: Sim, i: nat)
    requires Inv(cfg, w, s) && i < |s.calls| && Live(s.calls[i])
    ensures s.calls[i].queue < |cfg.quanta|
  {
    assert Placed(cfg, s.calls[i]);
  }

  lemma StillLive(cfg: Config, w: Workload, s: Sim, i: nat, c: Call, placed: Call, c': Call)
    requires |cfg.quanta| > 0 && |s.calls| == |w.specs| && i < |s.calls| && w.specs[i].pid < |s.entries|
    requires StepsLike(cfg, w, s, i, c, placed, c')
    ensures Waiting(c') || c'.status == Running || c'.status == Finished
  {
    hide LevelMoves, Reconsiders;
  }

  /** At a boundary of its engine the waiting of a call below the first level has reached `beta` times its service. */
  ghost predicate StarvedAt(cfg: Config, w: Workload, n: nat, i: nat)
    requires ValidWorkload(w) && ValidConfig(cfg, w)
  {
    var s := Reach(cfg, w, n);
    && i < |w.specs| && s.time <= cfg.maxTime && i < |s.calls| && Live(s.calls[i]) && s.calls[i].queue > 0
    && cfg.policy in {Mlfq, Plas, Atlas, DagAtlas} && Reconsiders(s, s.calls[i].engine)
    && w.specs[i].pid < |s.entries| && Starved(cfg, s.calls[i], s.entries[w.specs[i].pid])
  }

  lemma StarvedRises(cfg: Config, w: Workload, n: nat, i: nat)
    requires ValidWorkload(w) && ValidConfig(cfg, w) && StarvedAt(cfg, w, n, i)
    ensures Started(Reach(cfg, w, n + 1).calls, i) || WaitsAt(cfg, w, n + 1, i)
  {
    hide Reach, Starved, Reconsiders, StepsLike;
    LevelRules(cfg, w, n, i);
    var placed := LevelsInRun(cfg, w, n, i);
    StillLive(cfg, w, Reach(cfg, w, n), i, Reach(cfg, w, n).calls[i], placed, Reach(cfg, w, n + 1).calls[i]);
  }

  /** Counted from state `n`, the call starts within `m` steps, no more than the bound for the first level, unless the
      time limit ends the run. */
  ghost predicate StartsBy(cfg: Config, w: Workload, n: nat, i: nat, m: nat)
    requires ValidWorkload(w) && ValidConfig(cfg, w)
  {
    && m <= (if WaitsAt(cfg, w, n, i) then DelayAt(cfg, w, n, i) + 1 else 0)
    && (Started(Reach(cfg, w, n + m).calls, i) || Reach(cfg, w, n + m).time > cfg.maxTime)
  }

  /** No starvation below the first level. */
  lemma StarvedStarts(cfg: Config, w: Workload, n: nat, i: nat) returns (m: nat)
    requires ValidWorkload(w) && ValidConfig(cfg, w) && StarvedAt(cfg, w, n, i)
    ensures StartsBy(cfg, w, n + 1, i, m)
  {
    hide Reach, StarvedAt, DelayAt, WaitsAt, Started, ValidWorkload, ValidConfig;
    StarvedRises(cfg, w, n, i);
    if WaitsAt(cfg, w, n + 1, i) {
      m := StartsInTime(cfg, w, n + 1, i);
    } else {
      m := 0;
    }
  }
}
