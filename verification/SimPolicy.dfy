/** When a call is released, on which level, and how it moves between levels: stated on the states of a run, with the
 *  boundaries, quanta, delays and the starvation factor of the configuration written out.
 */
module SimPolicies {
  import opened Sequences
  import opened Levels
  import opened SimModel
  import opened SimInvariant
  import opened SimTermination
  import opened SimSteps

  // ---- The level of a released call -------------------------------------------------------

  /** The service lies in the interval of level `q`. */
  ghost predicate InLevel(bounds: seq<Bound>, service: int, q: nat) {
    && q + 1 < |bounds|
    && bounds[q].Finite? && bounds[q].value <= service as real
    && (bounds[q + 1].Finite? ==> (service as real) < bounds[q + 1].value)
  }

  /** `q` is the first level of the service, or the last level if it has none. */
  ghost predicate FirstLevel(bounds: seq<Bound>, service: int, q: nat) {
    && q + 1 < |bounds| && (forall k: nat :: k < q ==> !InLevel(bounds, service, k))
    && (InLevel(bounds, service, q) || q + 2 == |bounds|)
  }

  /** Boundaries from 0 to infinity, each above the one before. */
  ghost predicate Climbing(bounds: seq<Bound>) {
    && |bounds| >= 2 && bounds[0] == Finite(0.0) && bounds[|bounds| - 1] == Infinite
    && (forall q :: 0 <= q < |bounds| - 1 ==> bounds[q].Finite?)
    && (forall p, q :: 0 <= p < q < |bounds| - 1 ==> bounds[p].value < bounds[q].value)
  }

  lemma {:induction false} QueueFirst(bounds: seq<Bound>, service: int, q: nat)
    requires q + 1 < |bounds| && forall k: nat :: k < q ==> !InLevel(bounds, service, k)
    ensures FirstLevel(bounds, service, QueueFrom(bounds, service, q))
    decreases |bounds| - q
  {
    if !InLevel(bounds, service, q) && q + 2 < |bounds| {
      QueueFirst(bounds, service, q + 1);
    }
  }

  /** With climbing boundaries every nonnegative service has exactly one level, and more service never a smaller one. */
  lemma LevelsClimb(bounds: seq<Bound>, service: int, more: int, q: nat, q': nat)
    requires Climbing(bounds) && 0 <= service <= more && FirstLevel(bounds, service, q) && FirstLevel(bounds, more, q')
    ensures InLevel(bounds, service, q) && (forall k: nat :: InLevel(bounds, service, k) ==> k == q)
    ensures q <= q'
  {
    var top := LastReached(bounds, service, |bounds| - 1);
    assert InLevel(bounds, service, top);
    var top' := LastReached(bounds, more, |bounds| - 1);
    assert InLevel(bounds, more, top');
  }

  lemma {:induction false} LastReached(bounds: seq<Bound>, service: int, n: nat) returns (q: nat)
    requires Climbing(bounds) && 0 <= service && 1 <= n < |bounds|
    requires bounds[n].Finite? ==> (service as real) < bounds[n].value
    ensures InLevel(bounds, service, q)
  {
    if bounds[n - 1].value <= service as real {
      q := n - 1;
    } else {
      q := LastReached(bounds, service, n - 1);
    }
  }

  /** What a release of call `i` in state `s` makes of it. */
  ghost predicate EntersAs(cfg: Config, w: Workload, s: Sim, c: Call, i: nat)
    requires Shape(cfg, w, s) && i < |s.calls|
  {
    && c.status == Queued && c.ready == s.time && c.start == None && c.finish == None
    && c.engine == cfg.prep[i].engine && c.model == c.remaining == cfg.prep[i].model
    && c.sched == c.schedLeft == cfg.prep[i].sched
    && c.swap == c.swapLeft == c.wait == c.waitWindow == c.executed == c.runWindow == 0
    && (cfg.policy == Mlfq ==> c.priority == 0)
    && (cfg.policy == DagAtlas ==> c.priority == c.cps)
    && (cfg.policy in {Fcfs, Plas, Atlas, RoundRobin} ==> c.priority == s.entries[w.specs[i].pid].service)
    && (cfg.policy in {Fcfs, RoundRobin} ==> c.queue == 0)
    && (cfg.policy in {Mlfq, Plas, Atlas, DagAtlas} ==> FirstLevel(cfg.bounds, c.priority, c.queue))
    && c.queue < |cfg.quanta| && c.quantum == cfg.quanta[c.queue]
  }

  lemma LevelAssigned(cfg: Config, w: Workload, s: Sim, priority: int)
    requires Shape(cfg, w, s)
    ensures cfg.policy in {Fcfs, RoundRobin} ==> AssignQueue(cfg, priority) == 0
    ensures cfg.policy in {Mlfq, Plas, Atlas, DagAtlas} ==> FirstLevel(cfg.bounds, priority, AssignQueue(cfg, priority))
  {
    QueueFirst(cfg.bounds, priority, 0);
    hide QueueFrom, FirstLevel, Ranked;
  }

  lemma ReleasedEnters(cfg: Config, w: Workload, s: Sim, c: Call, i: nat)
    requires Shape(cfg, w, s) && i < |s.calls| && ReleasedAs(cfg, w, s, c, i) && s.calls[i] == Fresh(w.specs[i])
    ensures EntersAs(cfg, w, s, c, i)
  {
    LevelAssigned(cfg, w, s, c.priority);
    hide AssignQueue, FirstLevel, CriticalPathService, Ranked;
  }

  // ---- When a call may start ---------------------------------------------------------------

  /** The program has arrived, the call was submitted, and every parent finished at least the delay ago; without parents
      the delay counts from the later of arrival and submission. */
  ghost predicate MayStart(w: Workload, calls: seq<Call>, i: nat, time: int)
    requires i < |w.specs| == |calls| && w.specs[i].pid < |w.arrivals|
  {
    var spec := w.specs[i];
    && w.arrivals[spec.pid] <= time && (spec.submitTime.Some? ==> spec.submitTime.value <= time)
    && (spec.parents == [] ==>
         && w.arrivals[spec.pid] + spec.releaseDelay <= time
         && (spec.submitTime.Some? ==> spec.submitTime.value + spec.releaseDelay <= time))
    && (forall p :: p in spec.parents ==>
          p < |calls| && calls[p].finish.Some? && calls[p].finish.value + spec.releaseDelay <= time)
  }

  lemma DueMeans(cfg: Config, w: Workload, calls: seq<Call>, i: nat, time: int)
    requires i < |w.specs| == |calls| && w.specs[i].pid < |w.arrivals| && time <= cfg.maxTime
    ensures Earliest(cfg, w, calls, i) <= time <==> MayStart(w, calls, i, time)
  {
    var parents := w.specs[i].parents;
    if parents != [] {
      assert parents[0] in parents;
      if ParentsFinished(w, calls, i) {
        var last := LastFinish(calls, parents);
        assert forall p :: p in parents ==> calls[p].finish.value <= last;
      }
    }
  }

  // ---- Releases over whole runs ---------------------------------------------------------------

  lemma {:induction false} PendingFresh(cfg: Config, w: Workload, n: nat)
    requires ValidWorkload(w) && ValidConfig(cfg, w)
    ensures |Reach(cfg, w, n).calls| == |w.specs|
    ensures forall i :: 0 <= i < |w.specs| && Reach(cfg, w, n).calls[i].status == Pending ==>
      Reach(cfg, w, n).calls[i] == Fresh(w.specs[i])
  {
    hide Inv, Shape, Reach, Step, Earliest, ReleasedAs, Released, Kept, AllFinished, Fresh, ValidWorkload, ValidConfig;
    ReachUnroll(cfg, w, n);
    ShapeSizes(cfg, w, Reach(cfg, w, n));
    if n == 0 {
      InitFresh(cfg, w);
    } else {
      PendingFresh(cfg, w, n - 1);
      ReachInv(cfg, w, n - 1);
      var s := Reach(cfg, w, n - 1);
      if !(AllFinished(s) || s.time > cfg.maxTime) {
        forall i | 0 <= i < |w.specs| && Step(cfg, w, s).calls[i].status == Pending
          ensures Step(cfg, w, s).calls[i] == s.calls[i]
        {
          StepCall(cfg, w, s, i);
          ReleasedSize(cfg, w, s, |s.calls|);
          StillPending(cfg, w, s, i);
        }
      }
    }
  }

  lemma ReleasedSize(cfg: Config, w: Workload, s: Sim, k: nat)
    requires Shape(cfg, w, s) && k <= |s.calls|
    ensures |ReleaseUpTo(cfg, w, s, k).calls| == |s.calls| && |Released(cfg, w, s).calls| == |s.calls|
  {
    hide ReleaseUpTo, Shape;
    ReleasedIs(cfg, w, s);
    ShapeSizes(cfg, w, s);
    ShapeSizes(cfg, w, ReleaseUpTo(cfg, w, s, k));
    ShapeSizes(cfg, w, ReleaseUpTo(cfg, w, s, |s.calls|));
  }

  lemma InitFresh(cfg: Config, w: Workload)
    requires ValidWorkload(w) && ValidConfig(cfg, w)
    ensures |Init(cfg, w).calls| == |w.specs| && forall i :: 0 <= i < |w.specs| ==>
      Init(cfg, w).calls[i] == Fresh(w.specs[i])
  {
    hide ValidWorkload, ValidConfig, Fresh;
  }

  /** A call that is pending after a step was not touched by it. */
  lemma StillPending(cfg: Config, w: Workload, s: Sim, i: nat)
    requires Shape(cfg, w, s) && i < |s.calls| && |Step(cfg, w, s).calls| == |s.calls|
      && |Released(cfg, w, s).calls| == |s.calls|
    requires var c, c' := s.calls[i], Step(cfg, w, s).calls[i];
      if c.status == Pending && Earliest(cfg, w, s.calls, i) <= s.time
      then ReleasedAs(cfg, w, s, Released(cfg, w, s).calls[i], i) && Kept(Released(cfg, w, s).calls[i], c', s.time + 1)
      else Kept(c, c', s.time + 1)
    requires Step(cfg, w, s).calls[i].status == Pending
    ensures Step(cfg, w, s).calls[i] == s.calls[i] && !(Earliest(cfg, w, s.calls, i) <= s.time)
  {
    hide Shape, Step, Released, Earliest;
  }

  /** The release phase from any state of any run admits exactly the pending calls that may start, each on its level. */
  lemma ReleasesInRun(cfg: Config, w: Workload, n: nat, k: nat)
    requires ValidWorkload(w) && ValidConfig(cfg, w) && Reach(cfg, w, n).time <= cfg.maxTime && k <= |w.specs|
    ensures var s := Reach(cfg, w, n);
      && Shape(cfg, w, s) && |s.calls| == |w.specs| && forall i :: 0 <= i < |w.specs| ==> w.specs[i].pid < |w.arrivals|
    ensures var s := Reach(cfg, w, n);
      var r := ReleaseUpTo(cfg, w, s, k);
      forall i :: 0 <= i < |w.specs| ==>
        if i < k && s.calls[i].status == Pending && MayStart(w, s.calls, i, s.time)
        then EntersAs(cfg, w, s, r.calls[i], i) else r.calls[i] == s.calls[i]
  {
    hide Inv, Reach, Earliest, ReleasedAs, MayStart, EntersAs, ReleaseUpTo, Fresh, Shape;
    ReachUnroll(cfg, w, n);
    ReachInv(cfg, w, n);
    PendingFresh(cfg, w, n);
    var s := Reach(cfg, w, n);
    ShapeSizes(cfg, w, s);
    ReleaseUpToAs(cfg, w, s, k);
    var r := ReleaseUpTo(cfg, w, s, k);
    ReleasedSize(cfg, w, s, k);
    forall i | 0 <= i < |w.specs|
      ensures if i < k && s.calls[i].status == Pending && MayStart(w, s.calls, i, s.time)
        then EntersAs(cfg, w, s, r.calls[i], i) else r.calls[i] == s.calls[i]
    {
      DueMeans(cfg, w, s.calls, i, s.time);
      if i < k && s.calls[i].status == Pending && MayStart(w, s.calls, i, s.time) {
        ReleasedEnters(cfg, w, s, r.calls[i], i);
      }
    }
  }

  /** In every state of every run, a released call was allowed to start when it became ready. */
  lemma {:induction false} ReadyWhenAllowed(cfg: Config, w: Workload, n: nat, i: nat)
    requires ValidWorkload(w) && ValidConfig(cfg, w) && i < |w.specs|
    ensures |Reach(cfg, w, n).calls| == |w.specs| && w.specs[i].pid < |w.arrivals|
    ensures var s := Reach(cfg, w, n);
      s.calls[i].status != Pending ==> MayStart(w, s.calls, i, s.calls[i].ready)
  {
    hide Inv, Shape, Reach, Step, Earliest, ReleasedAs, Released, Kept, AllFinished, MayStart, ValidWorkload,
      ValidConfig;
    ReachUnroll(cfg, w, n);
    ShapeSizes(cfg, w, Reach(cfg, w, n));
    if n == 0 {
      InitFresh(cfg, w);
    } else {
      ReadyWhenAllowed(cfg, w, n - 1, i);
      ReachInv(cfg, w, n - 1);
      var s := Reach(cfg, w, n - 1);
      if !(AllFinished(s) || s.time > cfg.maxTime) {
        StepReady(cfg, w, s, i);
      }
    }
  }

  lemma StepReady(cfg: Config, w: Workload, s: Sim, i: nat)
    requires Inv(cfg, w, s) && Shape(cfg, w, s) && s.time <= cfg.maxTime && i < |s.calls|
    requires |s.calls| == |w.specs| && w.specs[i].pid < |w.arrivals|
    requires s.calls[i].status != Pending ==> MayStart(w, s.calls, i, s.calls[i].ready)
    ensures var r := Step(cfg, w, s);
      |r.calls| == |w.specs| && (r.calls[i].status != Pending ==> MayStart(w, r.calls, i, r.calls[i].ready))
  {
    hide Inv, Shape, Step, Earliest, MayStart, ReleasedAs, Released, Kept;
    var r := Step(cfg, w, s);
    ShapeSizes(cfg, w, r);
    StepCall(cfg, w, s, i);
    ReleasedSize(cfg, w, s, |s.calls|);
    StepReadyOne(cfg, w, s, i);
    DueMeans(cfg, w, s.calls, i, s.time);
    if r.calls[i].status != Pending {
      forall p | 0 <= p < |s.calls| && s.calls[p].finish.Some? ensures r.calls[p].finish == s.calls[p].finish {
        FinishStays(cfg, w, s, p);
      }
      MayStartStays(w, s.calls, r.calls, i, r.calls[i].ready);
    }
  }

  lemma StepReadyOne(cfg: Config, w: Workload, s: Sim, i: nat)
    requires Shape(cfg, w, s) && i < |s.calls| && |Step(cfg, w, s).calls| == |s.calls|
      && |Released(cfg, w, s).calls| == |s.calls|
    requires var c, c' := s.calls[i], Step(cfg, w, s).calls[i];
      if c.status == Pending && Earliest(cfg, w, s.calls, i) <= s.time
      then ReleasedAs(cfg, w, s, Released(cfg, w, s).calls[i], i) && Kept(Released(cfg, w, s).calls[i], c', s.time + 1)
      else Kept(c, c', s.time + 1)
    ensures var c, c' := s.calls[i], Step(cfg, w, s).calls[i];
      if c.status == Pending then c'.status != Pending ==> Earliest(cfg, w, s.calls, i) <= s.time && c'.ready == s.time
      else c'.ready == c.ready
  {
    hide Shape, Step, Released, Earliest;
  }

  lemma FinishStays(cfg: Config, w: Workload, s: Sim, p: nat)
    requires Inv(cfg, w, s) && Shape(cfg, w, s) && s.time <= cfg.maxTime && p < |s.calls| && s.calls[p].finish.Some?
    ensures p < |Step(cfg, w, s).calls| && Step(cfg, w, s).calls[p].finish == s.calls[p].finish
  {
    hide Step, Earliest, ReleasedAs, Released, Shape, AllPlaces, AllSlots, AllAfterParents, Stamps;
    ShapeSizes(cfg, w, Step(cfg, w, s));
    ShapeSizes(cfg, w, s);
    StepCall(cfg, w, s, p);
    BooksStart(s.calls, s.time, 0);
  }

  lemma MayStartStays(w: Workload, calls: seq<Call>, calls': seq<Call>, i: nat, time: int)
    requires i < |w.specs| == |calls| == |calls'| && w.specs[i].pid < |w.arrivals| && MayStart(w, calls, i, time)
    requires forall p :: 0 <= p < |calls| && calls[p].finish.Some? ==> calls'[p].finish == calls[p].finish
    ensures MayStart(w, calls', i, time)
  {
  }

  // ---- The clock -----------------------------------------------------------------------------

  ghost predicate ClockMoves(cfg: Config, w: Workload, now: int, r: Sim) {
    && |r.calls| == |w.specs| && (forall i :: 0 <= i < |w.specs| ==> w.specs[i].pid < |w.arrivals|)
    && ((exists i :: 0 <= i < |r.calls| && Live(r.calls[i])) ==> r.time == now + 1)
    && ((forall i :: 0 <= i < |r.calls| ==> r.calls[i].status in {Pending, Finished}) && r.time <= cfg.maxTime
        && (exists i :: 0 <= i < |r.calls| && r.calls[i].status == Pending) ==>
          exists i :: 0 <= i < |r.calls| && r.calls[i].status == Pending && MayStart(w, r.calls, i, r.time))
    && (forall i, t :: 0 <= i < |r.calls| && r.calls[i].status == Pending && now < t < r.time && t <= cfg.maxTime ==>
          !MayStart(w, r.calls, i, t))
  }

  /** With something live the clock moves by one tick. With nothing live it moves to a time at which some pending call
      may start, and skips no time at which one might have started. */
  lemma ClockInRun(cfg: Config, w: Workload, n: nat)
    requires ValidWorkload(w) && ValidConfig(cfg, w)
    requires Reach(cfg, w, n).time <= cfg.maxTime && !AllFinished(Reach(cfg, w, n))
    ensures ClockMoves(cfg, w, Reach(cfg, w, n).time, Reach(cfg, w, n + 1))
  {
    hide Reach, Step, AllFinished, ValidWorkload, ValidConfig, ClockMoves;
    ReachUnroll(cfg, w, n + 1);
    StepClock(cfg, w, Reach(cfg, w, n));
  }

  lemma StepClock(cfg: Config, w: Workload, s: Sim)
    requires Shape(cfg, w, s) && s.time <= cfg.maxTime
    ensures ClockMoves(cfg, w, s.time, Step(cfg, w, s))
  {
    hide Step, ClockMoves, TickUpTo, ScheduleUpTo, ReleaseUpTo, NextTime, ValidWorkload, ValidConfig;
    StepResult(cfg, w, s);
    var c := TickUpTo(cfg, w, ScheduleUpTo(cfg, w, Released(cfg, w, s), cfg.engines), cfg.engines);
    ShapeSizes(cfg, w, s);
    ShapeSizes(cfg, w, c);
    ClockOf(cfg, w, c, s.time);
  }

  lemma ClockOf(cfg: Config, w: Workload, c: Sim, now: int)
    requires Shape(cfg, w, c) && now <= cfg.maxTime && |c.calls| == |w.specs|
    requires forall i :: 0 <= i < |w.specs| ==> w.specs[i].pid < |w.arrivals|
    ensures ClockMoves(cfg, w, now, c.(time := NextTime(cfg, w, c, now + 1)))
  {
    hide Shape, Earliest, MayStart;
    var t' := NextTime(cfg, w, c, now + 1);
    forall i, t | 0 <= i < |c.calls| && c.calls[i].status == Pending && now < t < t' && t <= cfg.maxTime
      ensures !MayStart(w, c.calls, i, t)
    {
      DueMeans(cfg, w, c.calls, i, t);
      assert PendingAt(c, i);
    }
    if !Busy(c) && t' <= cfg.maxTime && exists i :: 0 <= i < |c.calls| && c.calls[i].status == Pending {
      var i := DueByThen(cfg, w, c, now + 1);
      DueMeans(cfg, w, c.calls, i, t');
    }
  }

  lemma DueByThen(cfg: Config, w: Workload, c: Sim, time: int) returns (i: nat)
    requires Shape(cfg, w, c) && |c.calls| == |w.specs| && !Busy(c)
    requires exists i :: 0 <= i < |c.calls| && c.calls[i].status == Pending
    requires forall i :: 0 <= i < |w.specs| ==> w.specs[i].pid < |w.arrivals|
    ensures i < |c.calls| && PendingAt(c, i) && Earliest(cfg, w, c.calls, i) <= NextTime(cfg, w, c, time)
  {
    hide Shape, Earliest;
    i :| i < |c.calls| && c.calls[i].status == Pending;
    assert PendingAt(c, i);
    if IdleWithFutureWork(cfg, w, c, time) {
      var next := NextRelease(cfg, w, c, |c.calls|);
      i :| i < |c.calls| && PendingAt(c, i) && next.value == Earliest(cfg, w, c.calls, i);
    }
  }

  // ---- Levels at a scheduling boundary -----------------------------------------------------------

  /** The accumulated waiting is at least `beta` times the service: of the call alone under MLFQ, of its program and the
      call together otherwise. */
  ghost predicate Starved(cfg: Config, c: Call, entry: Entry) {
    if cfg.policy == Mlfq then c.waitWindow as real >= cfg.beta * Max(1, c.runWindow) as real
    else (entry.waiting + c.waitWindow) as real >= cfg.beta * Max(1, entry.service + c.runWindow) as real
  }

  /** What a scheduling boundary does to the level of a live call: a spent quantum takes it one level down, to the tail,
      with the quantum of that level; starvation takes it from below to the tail of the first level and clears both
      windows. */
  ghost predicate LevelMoves(cfg: Config, c: Call, entry: Entry, counter: nat, c': Call)
    requires |cfg.quanta| > 0
  {
    var last, spent := |cfg.quanta| - 1, cfg.policy != Fcfs && c.quantum <= 0;
    var level := if !spent then c.queue else if cfg.policy == RoundRobin then 0 else Min(c.queue + 1, last);
    if cfg.policy != Fcfs && level > 0 && Starved(cfg, c, entry) then
      && c'.queue == 0 && c'.quantum == cfg.quanta[0] && c'.order > counter && c'.waitWindow == 0 && c'.runWindow == 0
    else
      && c'.queue == level && c'.waitWindow == c.waitWindow && c'.runWindow == c.runWindow
      && (spent ==> 0 <= level <= last && c'.quantum == cfg.quanta[level] && c'.order > counter)
      && (!spent ==> c'.quantum == c.quantum && c'.order == c.order)
  }

  lemma RatioReaches(part: int, whole: int, beta: real)
    requires whole >= 1
    ensures part as real / whole as real >= beta <==> part as real >= beta * whole as real
  {
    var ratio := part as real / whole as real;
    assert ratio * whole as real == part as real;
    if ratio >= beta {
      assert (ratio - beta) * whole as real >= 0.0;
    } else {
      assert (beta - ratio) * whole as real > 0.0;
    }
  }

  lemma PromotesIfStarved(cfg: Config, c: Call, queue: nat, entry: Entry)
    ensures ShouldPromote(cfg, c, queue, entry) <==> cfg.policy != Fcfs && queue > 0 && Starved(cfg, c, entry)
  {
    RatioReaches(c.waitWindow, Max(1, c.runWindow), cfg.beta);
    RatioReaches(entry.waiting + c.waitWindow, Max(1, entry.service + c.runWindow), cfg.beta);
  }

  lemma RequeuedMoves(cfg: Config, c: Call, entry: Entry, counter: nat, place: Place)
    requires |cfg.quanta| > 0
    requires var hops := HopsOf(cfg, c, entry);
      if hops == [] then place == Place(c.queue, c.order)
      else counter < place.order && place.queue == hops[|hops| - 1]
    ensures LevelMoves(cfg, c, entry, counter, Requeued(cfg, c, entry, place))
  {
    hide Starved, ShouldPromote;
    PromotesIfStarved(cfg, c, if ShouldPreempt(cfg, c) then DemotedQueue(cfg, c.queue) else c.queue, entry);
  }

  lemma SelectedLevel(cfg: Config, line: seq<nat>, victims: seq<nat>, c: Call, i: nat, time: int)
    ensures var r := SelectedCall(cfg, line, victims, c, i, time);
      && r.queue == c.queue && r.order == c.order && r.quantum == c.quantum
      && r.waitWindow == c.waitWindow && r.runWindow == c.runWindow
  {
  }

  /** The engine reconsiders its line: its window is over, or nothing runs. */
  ghost predicate Reconsiders(s: Sim, e: nat) {
    e < |s.windows| && (s.windows[e] == 0 || forall i :: 0 <= i < |s.calls| ==>
      !(s.calls[i].engine == e && s.calls[i].status == Running))
  }

  lemma NobodyRuns(s: Sim, e: nat)
    ensures Reconsiders(s, e) <==> e < |s.windows| && (s.windows[e] == 0 || RunningOn(s.calls, e) == [])
  {
    EmptyOrMember(RunningOn(s.calls, e));
  }

  lemma BoundaryMoves(cfg: Config, w: Workload, s: Sim, e: nat, i: nat)
    requires Inv(cfg, w, s) && Shape(cfg, w, s) && e < cfg.engines && Reconsiders(s, e)
    requires |s.calls| == |w.specs| && i < |s.calls| && LiveOn(s.calls[i], e) && w.specs[i].pid < |s.entries|
    ensures |cfg.quanta| > 0 && |ScheduleEngine(cfg, w, s, e).calls| == |s.calls|
    ensures LevelMoves(cfg, s.calls[i], s.entries[w.specs[i].pid], s.counter, ScheduleEngine(cfg, w, s, e).calls[i])
  {
    hide Inv, Shape, ScheduleEngine, Refreshed, RefreshedKeys, Selected, Sel, Stamps, HopsOf, LevelMoves, Requeued,
      SelectedCall, Reconsiders;
    NobodyRuns(s, e);
    ShapeSizes(cfg, w, s);
    ShapeSizes(cfg, w, ScheduleEngine(cfg, w, s, e));
    InvStart(cfg, w, s);
    Rescheduled(cfg, w, s, e);
    RefreshStart(cfg, w, s, e);
    RefreshedKeysFacts(cfg, w, s.calls, s.entries, e, s.counter);
    var refreshed := Refreshed(cfg, w, s.calls, s.entries, e, s.counter);
    var keys := RefreshedKeys(cfg, w, s.calls, s.entries, e, s.counter).0;
    RequeuedMoves(cfg, s.calls[i], s.entries[w.specs[i].pid], s.counter, keys[i]);
    SelectedLevel(cfg, Line(refreshed, e), Victims(cfg, refreshed, e), refreshed[i], i, s.time);
    SameLevelMoves(cfg, s.calls[i], s.entries[w.specs[i].pid], s.counter, refreshed[i],
      ScheduleEngine(cfg, w, s, e).calls[i]);
  }

  lemma SameLevelMoves(cfg: Config, c: Call, entry: Entry, counter: nat, r: Call, r': Call)
    requires |cfg.quanta| > 0 && LevelMoves(cfg, c, entry, counter, r)
    requires r'.queue == r.queue && r'.order == r.order && r'.quantum == r.quantum
    requires r'.waitWindow == r.waitWindow && r'.runWindow == r.runWindow
    ensures LevelMoves(cfg, c, entry, counter, r')
  {
    hide Starved;
  }
}
