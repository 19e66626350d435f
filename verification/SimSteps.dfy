/** What one whole step of the simulator does to one call. */
module SimSteps {
  import opened Sequences
  import opened Levels
  import opened SimModel
  import opened SimInvariant
  import opened SimTermination

  /** From its release to its end a call keeps its placement, its costs and its priorities; it ends at `end`. */
  predicate Kept(c: Call, c': Call, end: int) {
    && c'.engine == c.engine && c'.model == c.model && c'.sched == c.sched && c'.ready == c.ready
    && c'.priority == c.priority && c'.cps == c.cps
    && (c.status == Pending <==> c'.status == Pending)
    && (c.status == Pending || c.status == Finished ==> c' == c)
    && (c.status != Finished && c'.status == Finished ==> c'.finish == Some(end))
  }

  /** What a release fixes for good. */
  ghost predicate ReleasedAs(cfg: Config, w: Workload, s: Sim, c': Call, i: nat)
    requires Shape(cfg, w, s) && i < |s.calls|
  {
    && c'.status == Queued && c'.ready == s.time
    && c'.engine == cfg.prep[i].engine && c'.model == cfg.prep[i].model && c'.sched == cfg.prep[i].sched
    && (forall p :: p in w.specs[i].parents ==> s.calls[p].status == Finished)
    && c'.cps == CriticalPathService(s.calls, w.specs[i].parents)
    && c'.priority == PriorityOf(cfg.policy, c', s.entries[w.specs[i].pid])
    && c'.queue == AssignQueue(cfg, c'.priority) && c'.quantum == cfg.quanta[c'.queue]
    && c'.remaining == c'.model && c'.schedLeft == c'.sched && Untouched(s.calls[i], c')
  }

  /** Nothing was charged to the call. */
  predicate Untouched(c: Call, c': Call) {
    && c'.swap == c.swap && c'.swapLeft == c.swapLeft && c'.wait == c.wait && c'.waitWindow == c.waitWindow
    && c'.executed == c.executed && c'.runWindow == c.runWindow && c'.start == c.start && c'.finish == c.finish
  }

  lemma {:induction false} SameCriticalPath(calls: seq<Call>, calls': seq<Call>, parents: seq<nat>)
    requires |calls| == |calls'| && forall p :: p in parents ==> p < |calls| && calls'[p] == calls[p]
    ensures CriticalPathService(calls', parents) == CriticalPathService(calls, parents)
  {
    if parents != [] {
      assert parents[0] in parents && forall p :: p in parents[1..] ==> p in parents;
      if |parents| > 1 {
        SameCriticalPath(calls, calls', parents[1..]);
      }
    }
  }

  /** A call that is due has all its parents finished: the sentinel lies past the limit that the guard enforces. */
  lemma DueParents(cfg: Config, w: Workload, s: Sim, i: nat)
    requires Inv(cfg, w, s) && Shape(cfg, w, s) && s.time <= cfg.maxTime && i < |s.calls|
    requires Earliest(cfg, w, s.calls, i) <= s.time
    ensures forall p :: p in w.specs[i].parents ==> s.calls[p].status == Finished
  {
    hide Stamps, AllAfterParents, AllPlaces, AllSlots, AllBooks, ValidConfig;
    BooksStart(s.calls, s.time, 0);
  }

  lemma {:induction false} ReleaseUpToAs(cfg: Config, w: Workload, s: Sim, k: nat)
    requires Inv(cfg, w, s) && Shape(cfg, w, s) && s.time <= cfg.maxTime && k <= |s.calls|
    ensures var r := ReleaseUpTo(cfg, w, s, k);
      forall i :: 0 <= i < |s.calls| ==>
        if i < k && s.calls[i].status == Pending && Earliest(cfg, w, s.calls, i) <= s.time
        then ReleasedAs(cfg, w, s, r.calls[i], i)
        else r.calls[i] == s.calls[i]
  {
    hide *;
    ReleaseUnroll(cfg, w, s, k);
    if k > 0 {
      ReleaseUpToAs(cfg, w, s, k - 1);
      ReleaseOneAs(cfg, w, s, k - 1);
    }
  }

  lemma ReleaseOneAs(cfg: Config, w: Workload, s: Sim, k: nat)
    requires Inv(cfg, w, s) && Shape(cfg, w, s) && s.time <= cfg.maxTime && k < |s.calls|
    ensures var mid := ReleaseUpTo(cfg, w, s, k);
      var r := Release(cfg, w, mid, k);
      && (forall i :: 0 <= i < |s.calls| && i != k ==> r.calls[i] == mid.calls[i])
      && (if s.calls[k].status == Pending && Earliest(cfg, w, s.calls, k) <= s.time
          then ReleasedAs(cfg, w, s, r.calls[k], k) else r.calls[k] == s.calls[k])
  {
    hide Inv, Earliest, CriticalPathService, AssignQueue, PriorityOf, ValidWorkload, ValidConfig, ReleaseUpTo;
    var mid := ReleaseUpTo(cfg, w, s, k);
    ShapeSizes(cfg, w, s);
    ReleaseUpToCalls(cfg, w, s, k);
    EarliestSame(cfg, w, s.calls, mid.calls, k);
    if s.calls[k].status == Pending && Earliest(cfg, w, s.calls, k) <= s.time {
      DueParents(cfg, w, s, k);
      ParentsKnown(cfg, w, s, k);
      SameCriticalPath(s.calls, mid.calls, w.specs[k].parents);
      AdmittedAs(cfg, w, s, mid, k);
    }
  }

  lemma ParentsKnown(cfg: Config, w: Workload, s: Sim, i: nat)
    requires Shape(cfg, w, s) && i < |s.calls|
    ensures i < |w.specs| && forall p :: p in w.specs[i].parents ==> p < |s.calls| && w.specs[p].pid == w.specs[i].pid
  {
  }

  lemma AdmittedAs(cfg: Config, w: Workload, s: Sim, mid: Sim, k: nat)
    requires Shape(cfg, w, s) && Shape(cfg, w, mid) && k < |s.calls| && mid.time == s.time && mid.entries == s.entries
    requires mid.calls[k] == s.calls[k]
    requires forall p :: p in w.specs[k].parents ==> s.calls[p].status == Finished
    requires forall p :: p in w.specs[k].parents ==> p < |s.calls|
    requires CriticalPathService(mid.calls, w.specs[k].parents) == CriticalPathService(s.calls, w.specs[k].parents)
    ensures ReleasedAs(cfg, w, s, Admitted(cfg, w, mid, k), k)
  {
    hide CriticalPathService, AssignQueue, ValidWorkload;
  }

  lemma {:induction false} ScheduleUpToKept(cfg: Config, w: Workload, s: Sim, k: nat, end: int)
    requires Inv(cfg, w, s) && Shape(cfg, w, s) && k <= cfg.engines
    ensures forall i :: 0 <= i < |s.calls| ==> Kept(s.calls[i], ScheduleUpTo(cfg, w, s, k).calls[i], end)
    ensures |ScheduleUpTo(cfg, w, s, k).calls| == |s.calls|
  {
    hide *;
    ShapeSizes(cfg, w, s);
    ScheduleUnroll(cfg, w, s, k);
    if k > 0 {
      ScheduleUpToKept(cfg, w, s, k - 1, end);
      ScheduleUpToInv(cfg, w, s, k - 1);
      var mid := ScheduleUpTo(cfg, w, s, k - 1);
      ShapeSizes(cfg, w, mid);
      InvStart(cfg, w, mid);
      ShapeSizes(cfg, w, ScheduleEngine(cfg, w, mid, k - 1));
      forall i | 0 <= i < |s.calls| ensures Kept(s.calls[i], ScheduleUpTo(cfg, w, s, k).calls[i], end) {
        ScheduleKeeps(cfg, w, mid, k - 1, i);
        KeepsKept(mid.calls[i], ScheduleEngine(cfg, w, mid, k - 1).calls[i], k - 1, end);
        KeptTwice(s.calls[i], mid.calls[i], ScheduleUpTo(cfg, w, s, k).calls[i], end);
      }
    } else {
      forall i | 0 <= i < |s.calls| ensures Kept(s.calls[i], s.calls[i], end) {
        KeptSame(s.calls[i], end);
      }
    }
  }

  lemma KeptSame(c: Call, end: int)
    ensures Kept(c, c, end)
  {
  }

  lemma KeptTwice(a: Call, b: Call, c: Call, end: int)
    requires Kept(a, b, end) && Kept(b, c, end)
    ensures Kept(a, c, end)
  {
  }

  lemma KeepsKept(c: Call, c': Call, e: nat, end: int)
    requires SchedulingKeeps(c, c') && (!LiveOn(c, e) ==> c' == c)
    ensures Kept(c, c', end)
  {
  }

  lemma {:induction false} TickUpToKept(cfg: Config, w: Workload, s: Sim, k: nat)
    requires Inv(cfg, w, s) && Shape(cfg, w, s) && k <= cfg.engines
    ensures |TickUpTo(cfg, w, s, k).calls| == |s.calls|
    ensures forall i :: 0 <= i < |s.calls| ==> Kept(s.calls[i], TickUpTo(cfg, w, s, k).calls[i], s.time + 1)
  {
    hide *;
    ShapeSizes(cfg, w, s);
    TickUnroll(cfg, w, s, k);
    if k > 0 {
      TickUpToKept(cfg, w, s, k - 1);
      TickUpToInv(cfg, w, s, k - 1);
      var mid := TickUpTo(cfg, w, s, k - 1);
      ShapeSizes(cfg, w, mid);
      ShapeSizes(cfg, w, TickEngine(cfg, w, mid, k - 1));
      forall i | 0 <= i < |s.calls| ensures Kept(s.calls[i], TickUpTo(cfg, w, s, k).calls[i], s.time + 1) {
        TickCallKeeps(cfg, w, mid, k - 1, i);
        TickKept(mid.calls[i], TickEngine(cfg, w, mid, k - 1).calls[i], k - 1, s.time);
        KeptTwice(s.calls[i], mid.calls[i], TickUpTo(cfg, w, s, k).calls[i], s.time + 1);
      }
    } else {
      forall i | 0 <= i < |s.calls| ensures Kept(s.calls[i], s.calls[i], s.time + 1) {
        KeptSame(s.calls[i], s.time + 1);
      }
    }
  }

  lemma TickKept(c: Call, c': Call, e: nat, time: int)
    requires if LiveOn(c, e) then TicksTo(c, c', time) else c' == c
    ensures Kept(c, c', time + 1)
  {
  }

  /** One step, seen from one call: it stays as it is, is released, or goes on and perhaps ends. */
  lemma StepCall(cfg: Config, w: Workload, s: Sim, i: nat)
    requires Inv(cfg, w, s) && Shape(cfg, w, s) && s.time <= cfg.maxTime && i < |s.calls|
    ensures var c, c' := s.calls[i], Step(cfg, w, s).calls[i];
      if c.status == Pending && Earliest(cfg, w, s.calls, i) <= s.time
      then ReleasedAs(cfg, w, s, Released(cfg, w, s).calls[i], i) && Kept(Released(cfg, w, s).calls[i], c', s.time + 1)
      else Kept(c, c', s.time + 1)
  {
    hide *;
    ShapeSizes(cfg, w, s);
    StepResult(cfg, w, s);
    ReleaseUpToInv(cfg, w, s, |s.calls|);
    ReleasedIs(cfg, w, s);
    var a := Released(cfg, w, s);
    InvShape(cfg, w, a);
    ReleaseUpToAs(cfg, w, s, |s.calls|);
    ShapeSizes(cfg, w, a);
    ScheduleUpToKept(cfg, w, a, cfg.engines, s.time + 1);
    ScheduleUpToInv(cfg, w, a, cfg.engines);
    var b := ScheduleUpTo(cfg, w, a, cfg.engines);
    InvShape(cfg, w, b);
    TickUpToKept(cfg, w, b, cfg.engines);
    KeptTwice(a.calls[i], b.calls[i], TickUpTo(cfg, w, b, cfg.engines).calls[i], s.time + 1);
  }

  lemma ReleasedIs(cfg: Config, w: Workload, s: Sim)
    requires Shape(cfg, w, s)
    ensures Released(cfg, w, s) == ReleaseUpTo(cfg, w, s, |s.calls|)
  {
  }

  lemma ReachUnroll(cfg: Config, w: Workload, n: nat)
    requires ValidWorkload(w) && ValidConfig(cfg, w)
    ensures Shape(cfg, w, Reach(cfg, w, n))
    ensures n == 0 ==> Reach(cfg, w, n) == Init(cfg, w)
    ensures n > 0 ==> var s := Reach(cfg, w, n - 1);
      Shape(cfg, w, s) && Reach(cfg, w, n) == if AllFinished(s) || s.time > cfg.maxTime then s else Step(cfg, w, s)
  {
    hide ValidWorkload, ValidConfig, AllFinished, Step, Init, Shape;
  }

  /** Settling one more call. */
  lemma SettleLast(cfg: Config, w: Workload, entries: seq<Entry>, calls: seq<Call>, front: seq<nat>, i: nat)
    requires |calls| == |w.specs| && i < |calls| && (forall j :: j in front ==> j < |calls|)
    requires forall j :: 0 <= j < |w.specs| ==> w.specs[j].pid < |entries|
    ensures var before, pid := Settle(cfg, w, entries, calls, front), w.specs[i].pid;
      && |before| == |entries|
      && Settle(cfg, w, entries, calls, front + [i]) ==
        if calls[i].status == Finished
        then before[pid := Entry(ServiceAfter(cfg.policy, before[pid], calls[i]), before[pid].waiting + calls[i].wait)]
        else before
  {
    hide ServiceAfter;
    assert (front + [i])[..|front|] == front;
  }
}
