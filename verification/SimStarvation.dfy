/** No starvation in the first queue: a call that waits there is overtaken by nobody and starts within a bound
 *  computed from the quanta, the window and the outstanding ticks of the calls ahead of it. */
module SimStarvation {
  import opened Sequences
  import opened Levels
  import opened SimModel
  import opened SimInvariant
  import opened SimTermination
  import opened SimSteps
  import opened SimPaths

  predicate Waiting(c: Call) { c.status == Queued || c.status == Prefetched }

  /** The call waits in the first queue. */
  predicate Waits(calls: seq<Call>, x: nat) { x < |calls| && Waiting(calls[x]) && calls[x].queue == 0 }

  /** Call `i` stands before call `x` in the line of their engine. */
  predicate AheadOf(calls: seq<Call>, x: nat, i: nat) {
    && i < |calls| && x < |calls|
    && Live(calls[i]) && calls[i].engine == calls[x].engine && KeyLess(calls[i], calls[x])
  }

  /** Swap and scheduler ticks a call still has to serve. */
  function Owed(c: Call): int { c.swapLeft + c.schedLeft }

  /** Model ticks a call can still run before a scheduling boundary demotes it. */
  function Room(cfg: Config, c: Call, window: nat): int {
    if !Preemptive(cfg.policy) then c.remaining
    else Min(c.remaining, if c.quantum > 0 then Max(window, c.quantum + cfg.interval - 1) else window)
  }

  ghost function Charge(cfg: Config, calls: seq<Call>, window: nat, x: nat, i: nat): int {
    if AheadOf(calls, x, i) then Owed(calls[i]) + Room(cfg, calls[i], window) else 0
  }

  ghost function Charges(cfg: Config, calls: seq<Call>, window: nat, x: nat): (r: seq<int>)
    ensures |r| == |calls| && forall i :: 0 <= i < |r| ==> r[i] == Charge(cfg, calls, window, x, i)
  {
    seq(|calls|, i requires 0 <= i < |calls| => Charge(cfg, calls, window, x, i))
  }

  function Debt(c: Call, e: nat): int { if Resident(c) && c.engine == e then Owed(c) else 0 }

  ghost function Debts(calls: seq<Call>, e: nat): (r: seq<int>)
    ensures |r| == |calls| && forall i :: 0 <= i < |r| ==> r[i] == Debt(calls[i], e)
  {
    seq(|calls|, i requires 0 <= i < |calls| => Debt(calls[i], e))
  }

  /** Nobody behind `x` holds a place on the engine, or `x` itself is prefetched and nobody behind it runs. */
  ghost predicate Guarded(calls: seq<Call>, x: nat)
    requires x < |calls|
  {
    && (forall i :: 0 <= i < |calls| && calls[i].engine == calls[x].engine && calls[i].status == Running ==>
       AheadOf(calls, x, i))
    && (calls[x].status == Prefetched ||
        forall i :: 0 <= i < |calls| && calls[i].engine == calls[x].engine && calls[i].status == Prefetched ==>
          AheadOf(calls, x, i))
  }

  /** The ticks within which a waiting call starts. The calls ahead cost what they owe and may still run; while calls
      from behind hold places, the rest of their frozen window and what they owe come on top. */
  ghost function Delay(cfg: Config, calls: seq<Call>, window: nat, x: nat): int
    requires x < |calls|
  {
    Sum(Charges(cfg, calls, window, x)) + if Guarded(calls, x) then 0 else Sum(Debts(calls, calls[x].engine)) + window
  }

  /** Waiting calls have an unused quantum, and the resident calls of the first queue are its oldest. */
  ghost predicate Fair(cfg: Config, calls: seq<Call>) {
    && (forall i :: 0 <= i < |calls| && Waiting(calls[i]) && Preemptive(cfg.policy) ==> calls[i].quantum > 0)
    && (forall h, k ::
          0 <= h < |calls| && 0 <= k < |calls| && Resident(calls[h]) && calls[h].queue == 0 && AheadOf(calls, h, k)
          ==> Resident(calls[k]))
  }

  // ---- Release -------------------------------------------------------------------

  /** What a release does to a call that waits: nothing, and nobody gets ahead of it. */
  lemma ReleaseDelay(cfg: Config, w: Workload, s: Sim, i: nat, x: nat, window: nat)
    requires Shape(cfg, w, s) && Stamps(s.calls, s.counter) && i < |s.calls| && Waits(s.calls, x)
    ensures var r := Release(cfg, w, s, i);
      |r.calls| == |s.calls| && r.calls[x] == s.calls[x]
        && Delay(cfg, r.calls, window, x) == Delay(cfg, s.calls, window, x)
    ensures forall j :: AheadOf(Release(cfg, w, s, i).calls, x, j) <==> AheadOf(s.calls, x, j)
  {
    ReleaseAhead(cfg, w, s, i, x);
    ReleaseCharges(cfg, w, s, i, x, window);
    ReleaseResidents(cfg, w, s, i, x);
    hide Shape, Release, Charges, AheadOf, Guarded, Debts, Sum;
  }

  lemma ReleaseResidents(cfg: Config, w: Workload, s: Sim, i: nat, x: nat)
    requires Shape(cfg, w, s) && Stamps(s.calls, s.counter) && i < |s.calls| && Waits(s.calls, x)
    ensures var r := Release(cfg, w, s, i);
      && |r.calls| == |s.calls| && r.calls[x] == s.calls[x]
      && Debts(r.calls, s.calls[x].engine) == Debts(s.calls, s.calls[x].engine)
      && (Guarded(r.calls, x) <==> Guarded(s.calls, x))
  {
    ReleaseAhead(cfg, w, s, i, x);
    ReleaseQueues(cfg, w, s, i);
    hide Shape, Release, AheadOf, Stamps;
    SameResidents(s.calls, Release(cfg, w, s, i).calls, x);
  }

  /** A release gives nobody a place. */
  lemma ReleaseQueues(cfg: Config, w: Workload, s: Sim, i: nat)
    requires Shape(cfg, w, s) && i < |s.calls|
    ensures var r := Release(cfg, w, s, i);
      |r.calls| == |s.calls| && forall j :: 0 <= j < |r.calls| ==>
        r.calls[j] == s.calls[j] || (s.calls[j].status == Pending && !Resident(r.calls[j]))
  {
    hide ValidWorkload, ValidConfig, Earliest, CriticalPathService, AssignQueue, PriorityOf;
  }

  lemma SameResidents(calls: seq<Call>, now: seq<Call>, x: nat)
    requires x < |calls| == |now| && now[x] == calls[x]
    requires forall j :: 0 <= j < |calls| ==> now[j] == calls[j] || (!Resident(calls[j]) && !Resident(now[j]))
    requires forall j :: AheadOf(now, x, j) <==> AheadOf(calls, x, j)
    ensures Debts(now, calls[x].engine) == Debts(calls, calls[x].engine) && (Guarded(now, x) <==> Guarded(calls, x))
  {
    hide AheadOf, Owed;
  }

  lemma ReleaseAhead(cfg: Config, w: Workload, s: Sim, i: nat, x: nat)
    requires Shape(cfg, w, s) && Stamps(s.calls, s.counter) && i < |s.calls| && Waits(s.calls, x)
    ensures forall j :: AheadOf(Release(cfg, w, s, i).calls, x, j) <==> AheadOf(s.calls, x, j)
  {
    hide ValidWorkload, ValidConfig, Earliest, CriticalPathService, AssignQueue, PriorityOf;
  }

  lemma ReleaseCharges(cfg: Config, w: Workload, s: Sim, i: nat, x: nat, window: nat)
    requires Shape(cfg, w, s) && Stamps(s.calls, s.counter) && i < |s.calls| && Waits(s.calls, x)
    ensures Charges(cfg, Release(cfg, w, s, i).calls, window, x) == Charges(cfg, s.calls, window, x)
  {
    hide ValidWorkload, ValidConfig, Earliest, CriticalPathService, AssignQueue, PriorityOf, Room;
  }

  lemma AdmittedQuantum(cfg: Config, w: Workload, s: Sim, i: nat)
    requires Shape(cfg, w, s) && i < |s.calls|
    ensures Admitted(cfg, w, s, i).quantum > 0 && Admitted(cfg, w, s, i).status == Queued
      && Admitted(cfg, w, s, i).order == s.counter + 1
  {
    hide ValidWorkload, CriticalPathService, PriorityOf;
  }

  lemma ReleaseFair(cfg: Config, w: Workload, s: Sim, i: nat)
    requires Shape(cfg, w, s) && Stamps(s.calls, s.counter) && i < |s.calls| && Fair(cfg, s.calls)
    ensures Fair(cfg, Release(cfg, w, s, i).calls)
  {
    hide ValidWorkload, ValidConfig, Earliest, Admitted;
    AdmittedQuantum(cfg, w, s, i);
    var r := Release(cfg, w, s, i);
    if r != s {
      forall h, k | 0 <= h < |r.calls| && 0 <= k < |r.calls| && Resident(r.calls[h]) && r.calls[h].queue == 0
        && AheadOf(r.calls, h, k)
        ensures Resident(r.calls[k])
      {
        assert AheadOf(s.calls, h, k);
      }
    }
  }

  lemma {:induction false} ReleaseUpToDelay(cfg: Config, w: Workload, s: Sim, k: nat, x: nat, window: nat)
    requires Inv(cfg, w, s) && Shape(cfg, w, s) && s.time <= cfg.maxTime && k <= |s.calls| && Waits(s.calls, x)
      && Fair(cfg, s.calls)
    ensures var r := ReleaseUpTo(cfg, w, s, k);
      && |r.calls| == |s.calls| && r.calls[x] == s.calls[x] && Fair(cfg, r.calls)
      && Delay(cfg, r.calls, window, x) == Delay(cfg, s.calls, window, x)
      && (forall j :: AheadOf(r.calls, x, j) <==> AheadOf(s.calls, x, j))
  {
    hide Inv, Shape, Release, Fair, Delay, AheadOf;
    ReleaseUnroll(cfg, w, s, k);
    if k > 0 {
      ReleaseUpToDelay(cfg, w, s, k - 1, x, window);
      ReleaseUpToInv(cfg, w, s, k - 1);
      var mid := ReleaseUpTo(cfg, w, s, k - 1);
      InvStart(cfg, w, mid);
      ReleaseDelay(cfg, w, mid, k - 1, x, window);
      ReleaseFair(cfg, w, mid, k - 1);
    }
  }

  lemma {:induction false} ReleaseUpToFair(cfg: Config, w: Workload, s: Sim, k: nat)
    requires Inv(cfg, w, s) && Shape(cfg, w, s) && s.time <= cfg.maxTime && k <= |s.calls| && Fair(cfg, s.calls)
    ensures Fair(cfg, ReleaseUpTo(cfg, w, s, k).calls)
  {
    hide Inv, Shape, Release, Fair;
    ReleaseUnroll(cfg, w, s, k);
    if k > 0 {
      ReleaseUpToFair(cfg, w, s, k - 1);
      ReleaseUpToInv(cfg, w, s, k - 1);
      var mid := ReleaseUpTo(cfg, w, s, k - 1);
      InvStart(cfg, w, mid);
      ShapeSizes(cfg, w, s);
      ShapeSizes(cfg, w, mid);
      ReleaseFair(cfg, w, mid, k - 1);
    }
  }

  // ---- Scheduling boundary ---------------------------------------------------------

  lemma HopsFacts(cfg: Config, c: Call, entry: Entry)
    requires |cfg.quanta| > 0
    ensures Preemptive(cfg.policy) && c.quantum <= 0 ==> HopsOf(cfg, c, entry) != []
    ensures c.queue == 0 && (!Preemptive(cfg.policy) || c.quantum > 0) ==> HopsOf(cfg, c, entry) == []
  {
  }

  /** What a refresh does to one call of its engine: it stays in place with an unused quantum, or moves behind every old
      stamp. */
  lemma RefreshOne(cfg: Config, w: Workload, s: Sim, e: nat, i: nat)
    requires Shape(cfg, w, s) && Stamps(s.calls, s.counter) && e < cfg.engines && i < |s.calls| && LiveOn(s.calls[i], e)
    ensures forall j :: 0 <= j < |w.specs| ==> w.specs[j].pid < |s.entries|
    ensures var c, c' := s.calls[i], Refreshed(cfg, w, s.calls, s.entries, e, s.counter)[i];
      && (Preemptive(cfg.policy) ==> c'.quantum > 0)
      && ((c'.queue == c.queue && c'.order == c.order && c'.quantum == c.quantum) || c'.order > s.counter)
      && (c.queue == 0 && (!Preemptive(cfg.policy) || c.quantum > 0) ==> c'.queue == 0 && c'.order == c.order)
  {
    hide Refreshed, RefreshedKeys, Sel, HopsOf, Promoted, ValidWorkload;
    RefreshStart(cfg, w, s, e);
    RefreshedKeysFacts(cfg, w, s.calls, s.entries, e, s.counter);
    HopsFacts(cfg, s.calls[i], s.entries[w.specs[i].pid]);
    RequeuedQuantum(cfg, s.calls[i], s.entries[w.specs[i].pid],
      RefreshedKeys(cfg, w, s.calls, s.entries, e, s.counter).0[i]);
    QuantaPositive(cfg, w, s);
  }

  lemma QuantaPositive(cfg: Config, w: Workload, s: Sim)
    requires Shape(cfg, w, s)
    ensures forall q :: 0 <= q < |cfg.quanta| ==> cfg.quanta[q] > 0
  {
  }

  lemma RequeuedQuantum(cfg: Config, c: Call, entry: Entry, place: Place)
    requires |cfg.quanta| > 0
    ensures var hops := HopsOf(cfg, c, entry);
      Requeued(cfg, c, entry, place).quantum == if hops == [] then c.quantum else cfg.quanta[hops[|hops| - 1]]
  {
    hide HopsOf;
  }

  /** The call keeps its key through a scheduling decision, and whoever is ahead of it afterwards was ahead before, has
      the same dues, and has a fresh window at most. */
  lemma BoundaryKeeps(cfg: Config, w: Workload, s: Sim, e: nat, x: nat, i: nat)
    requires Inv(cfg, w, s) && Fair(cfg, s.calls) && e < cfg.engines && Waits(s.calls, x) && s.calls[x].engine == e
      && i < |s.calls|
    requires s.windows[e] == 0 || RunningOn(s.calls, e) == []
    ensures Shape(cfg, w, s) && x < |ScheduleEngine(cfg, w, s, e).calls| == |s.calls|
    ensures var r := ScheduleEngine(cfg, w, s, e);
      && Live(r.calls[x]) && r.calls[x].queue == 0 && r.calls[x].order == s.calls[x].order && r.calls[x].engine == e
      && (AheadOf(r.calls, x, i) ==>
            AheadOf(s.calls, x, i) && r.calls[i].order == s.calls[i].order && r.calls[i].queue == 0
            && r.calls[i].remaining == s.calls[i].remaining && r.calls[i].quantum == s.calls[i].quantum
            && r.calls[i].schedLeft == s.calls[i].schedLeft
            && (Preemptive(cfg.policy) ==> r.calls[i].quantum > 0))
  {
    hide Inv, ScheduleEngine, Refreshed, Selected, Sel, Stamps, ValidWorkload, ValidConfig;
    InvStart(cfg, w, s);
    ShapeSizes(cfg, w, s);
    Rescheduled(cfg, w, s, e);
    var refreshed, r := Refreshed(cfg, w, s.calls, s.entries, e, s.counter), ScheduleEngine(cfg, w, s, e);
    RefreshOne(cfg, w, s, e, x);
    SelectKeys(cfg, refreshed, r.counter, e, s.time);
    StampBelow(s.calls, s.counter, x);
    ScheduleKeeps(cfg, w, s, e, i);
    SelectQuantum(cfg, refreshed, e, s.time, i);
    if AheadOf(r.calls, x, i) {
      assert LiveOn(s.calls[i], e);
      RefreshOne(cfg, w, s, e, i);
    }
  }

  lemma StampBelow(calls: seq<Call>, counter: nat, x: nat)
    requires Stamps(calls, counter) && x < |calls| && Live(calls[x])
    ensures calls[x].order <= counter
  {
  }

  lemma SelectQuantum(cfg: Config, calls: seq<Call>, e: nat, time: int, i: nat)
    requires i < |calls|
    ensures Selected(cfg, calls, e, time)[i].quantum == calls[i].quantum
  {
    hide Sel, Selected, Victims;
  }

  /** Nobody ahead of a waiting call of the first queue loses its place, so nobody ahead pays a new penalty. */
  lemma NoVictimAhead(cfg: Config, w: Workload, s: Sim, e: nat, x: nat, i: nat)
    requires Inv(cfg, w, s) && Fair(cfg, s.calls) && e < cfg.engines && Waits(s.calls, x) && s.calls[x].engine == e
      && i < |s.calls|
    requires s.windows[e] == 0 || RunningOn(s.calls, e) == []
    requires Shape(cfg, w, s) && |ScheduleEngine(cfg, w, s, e).calls| == |s.calls|
    requires AheadOf(ScheduleEngine(cfg, w, s, e).calls, x, i)
    ensures ScheduleEngine(cfg, w, s, e).calls[i].swapLeft == s.calls[i].swapLeft
  {
    hide Inv, ScheduleEngine, Refreshed, Selected, Sel, Stamps, ValidWorkload, ValidConfig, Victims, Fair, Slots;
    InvStart(cfg, w, s);
    ShapeSizes(cfg, w, s);
    Rescheduled(cfg, w, s, e);
    var refreshed, r := Refreshed(cfg, w, s.calls, s.entries, e, s.counter), ScheduleEngine(cfg, w, s, e);
    var line := Line(refreshed, e);
    SelectLists(cfg, refreshed, r.counter, e, s.time);
    VictimsAreLive(cfg, refreshed, e);
    SelectSwap(cfg, refreshed, e, s.time, i);
    BoundaryKeeps(cfg, w, s, e, x, i);
    SelectKeys(cfg, refreshed, r.counter, e, s.time);
    if Resident(s.calls[i]) {
      ResidentStays(cfg, w, s, e, x, i);
      assert Line(r.calls, e) == line;
    }
  }

  lemma SelectSwap(cfg: Config, calls: seq<Call>, e: nat, time: int, i: nat)
    requires i < |calls|
    ensures i !in Victims(cfg, calls, e) || i in Line(calls, e)[..HoldCount(cfg, Line(calls, e))] ==>
      Selected(cfg, calls, e, time)[i].swapLeft == calls[i].swapLeft
  {
    hide Sel, Selected, Victims;
    var line := Line(calls, e);
    SplitTake(line, RunCount(cfg, line), HoldCount(cfg, line));
  }

  lemma SplitTake(line: seq<nat>, run: nat, hold: nat)
    requires run <= hold <= |line|
    ensures forall i :: i in line[..hold] <==> i in line[..run] || i in line[run..hold]
  {
    assert line[..hold] == line[..run] + line[run..hold];
  }

  /** A resident call ahead of a waiting call of the first queue stays among the resident ones. */
  lemma ResidentStays(cfg: Config, w: Workload, s: Sim, e: nat, x: nat, i: nat)
    requires Inv(cfg, w, s) && Fair(cfg, s.calls) && e < cfg.engines && Waits(s.calls, x) && s.calls[x].engine == e
      && i < |s.calls|
    requires s.windows[e] == 0 || RunningOn(s.calls, e) == []
    requires Shape(cfg, w, s) && |ScheduleEngine(cfg, w, s, e).calls| == |s.calls|
    requires AheadOf(ScheduleEngine(cfg, w, s, e).calls, x, i) && Resident(s.calls[i])
    ensures var line := Line(ScheduleEngine(cfg, w, s, e).calls, e); i in line[..HoldCount(cfg, line)]
  {
    hide Inv, ScheduleEngine, Sel, Stamps, ValidWorkload, ValidConfig, Slots, KeyLess, Fair, InOrder;
    InvStart(cfg, w, s);
    ScheduleInv(cfg, w, s, e);
    var r := ScheduleEngine(cfg, w, s, e);
    InvStart(cfg, w, r);
    var line := Line(r.calls, e);
    SelFacts(r.calls, r.counter, e, LIVE);
    BoundaryKeeps(cfg, w, s, e, x, i);
    assert i in line;
    var a :| 0 <= a < |line| && line[a] == i;
    SlotsAt(cfg, s.calls, e);
    forall k | k in line[..a + 1] ensures k in RunningOn(s.calls, e) + PrefetchedOn(s.calls, e) {
      var b :| 0 <= b < a + 1 && line[b] == k;
      FrontResident(cfg, w, s, e, x, line, a, b);
    }
    PrefixFits(cfg, s, e, line[..a + 1]);
    TakenAt(line, HoldCount(cfg, line), a);
  }

  lemma PrefixFits(cfg: Config, s: Sim, e: nat, front: seq<nat>)
    requires Stamps(s.calls, s.counter) && Slots(cfg, s.calls, e) && NoDup(front)
    requires forall k :: k in front ==> k in RunningOn(s.calls, e) + PrefetchedOn(s.calls, e)
    ensures |front| <= cfg.batch + cfg.over
  {
    hide Sel, Stamps, KeyLess;
    SelFacts(s.calls, s.counter, e, {Running});
    SelFacts(s.calls, s.counter, e, {Prefetched});
    var run, pre := RunningOn(s.calls, e), PrefetchedOn(s.calls, e);
    assert NoDup(run + pre);
    NoDupSubLength(front, run + pre);
  }

  lemma FrontResident(cfg: Config, w: Workload, s: Sim, e: nat, x: nat, line: seq<nat>, a: nat, b: nat)
    requires Inv(cfg, w, s) && Fair(cfg, s.calls) && e < cfg.engines && Waits(s.calls, x) && s.calls[x].engine == e
    requires s.windows[e] == 0 || RunningOn(s.calls, e) == []
    requires Shape(cfg, w, s) && |ScheduleEngine(cfg, w, s, e).calls| == |s.calls|
    requires var r := ScheduleEngine(cfg, w, s, e);
      InOrder(r.calls, line) && b <= a < |line| && Line(r.calls, e) == line && AheadOf(r.calls, x, line[a])
    requires line[a] < |s.calls| && Resident(s.calls[line[a]])
    ensures line[b] in RunningOn(s.calls, e) + PrefetchedOn(s.calls, e)
  {
    hide Inv, ScheduleEngine, Sel, Shape, Fair;
    var r := ScheduleEngine(cfg, w, s, e);
    ScheduleKeepsLive(cfg, w, s, e);
    assert line[a] in line && line[b] in line;
    assert LiveOn(r.calls[line[b]], e) && LiveOn(s.calls[line[b]], e) && LiveOn(s.calls[line[a]], e);
    BoundaryKeeps(cfg, w, s, e, x, line[a]);
    if b < a {
      assert KeyLess(r.calls[line[b]], r.calls[line[a]]);
      assert AheadOf(r.calls, x, line[b]);
      BoundaryKeeps(cfg, w, s, e, x, line[b]);
      assert AheadOf(s.calls, line[a], line[b]);
      FairAt(cfg, s.calls, line[a], line[b]);
    }
    var c := s.calls[line[b]];
    assert c.status == Running || c.status == Prefetched;
    if c.status == Running {
      assert line[b] in RunningOn(s.calls, e);
    } else {
      assert line[b] in PrefetchedOn(s.calls, e);
    }
  }

  lemma FairAt(cfg: Config, calls: seq<Call>, h: nat, k: nat)
    requires Fair(cfg, calls) && h < |calls| && k < |calls| && Resident(calls[h]) && calls[h].queue == 0
      && AheadOf(calls, h, k)
    ensures Resident(calls[k])
  {
  }

  lemma RoomRenewed(cfg: Config, c: Call, c': Call, window: nat)
    requires cfg.interval > 0 && c'.remaining == c.remaining && c'.quantum == c.quantum
      && (Preemptive(cfg.policy) ==> c.quantum > 0)
    ensures Room(cfg, c', cfg.interval) <= Room(cfg, c, window)
  {
  }

  /** After selection nobody from behind a waiting call holds a place before it. */
  lemma SelectGuards(cfg: Config, calls: seq<Call>, line: seq<nat>, e: nat, x: nat)
    requires InOrder(calls, line) && x in line && x < |calls| && calls[x].engine == e
    requires forall i :: i in line <==> 0 <= i < |calls| && LiveOn(calls[i], e)
    requires forall i :: 0 <= i < |calls| && calls[i].engine == e && calls[i].status == Running ==>
      i in line[..RunCount(cfg, line)]
    requires forall i :: 0 <= i < |calls| && calls[i].engine == e && Resident(calls[i]) <==>
      i in line[..HoldCount(cfg, line)]
    requires Waiting(calls[x]) && x !in line[..RunCount(cfg, line)]
    ensures Guarded(calls, x)
  {
    hide KeyLess;
    var p :| 0 <= p < |line| && line[p] == x;
    TakenAt(line, RunCount(cfg, line), p);
    TakenAt(line, HoldCount(cfg, line), p);
    forall i | 0 <= i < |calls| && calls[i].engine == e && calls[i].status == Running ensures AheadOf(calls, x, i) {
      var a :| 0 <= a < RunCount(cfg, line) && line[a] == i;
    }
    if calls[x].status != Prefetched {
      forall i | 0 <= i < |calls| && calls[i].engine == e && calls[i].status == Prefetched
        ensures AheadOf(calls, x, i) {
        var a :| 0 <= a < HoldCount(cfg, line) && line[a] == i;
      }
    }
  }

  /** The state of engine `e` that a waiting call of it depends on. */
  ghost predicate SameView(a: Sim, b: Sim, e: nat) {
    && |a.calls| == |b.calls| && e < |a.windows| == |b.windows| && a.windows[e] == b.windows[e]
    && forall i :: 0 <= i < |a.calls| ==>
      (a.calls[i].engine == b.calls[i].engine) && (a.calls[i].engine == e ==> b.calls[i] == a.calls[i])
  }

  lemma ViewDelay(cfg: Config, a: Sim, b: Sim, x: nat)
    requires x < |a.calls| && SameView(a, b, a.calls[x].engine)
    ensures var e := a.calls[x].engine; Delay(cfg, b.calls, b.windows[e], x) == Delay(cfg, a.calls, a.windows[e], x)
    ensures forall j :: AheadOf(b.calls, x, j) <==> AheadOf(a.calls, x, j)
  {
    hide Room, KeyLess;
    var e := a.calls[x].engine;
    assert Charges(cfg, b.calls, b.windows[e], x) == Charges(cfg, a.calls, a.windows[e], x);
    assert Debts(b.calls, e) == Debts(a.calls, e);
  }

  /** Progress of a waiting call over a phase: it got a batch slot, or it kept its place, nobody got ahead, and its
      bound went down by `paid`. */
  ghost predicate Nearer(cfg: Config, a: Sim, b: Sim, x: nat, paid: int) {
    && x < |a.calls| == |b.calls| && a.calls[x].engine == b.calls[x].engine < |a.windows| == |b.windows|
    && (Started(b.calls, x) || Closer(cfg, a, b, x, paid))
  }

  predicate Started(calls: seq<Call>, x: nat) {
    x < |calls| && (calls[x].status == Running || calls[x].status == Finished)
  }

  ghost predicate Closer(cfg: Config, a: Sim, b: Sim, x: nat, paid: int)
    requires x < |a.calls| == |b.calls| && a.calls[x].engine == b.calls[x].engine < |a.windows| == |b.windows|
  {
    var e := a.calls[x].engine;
    && Waits(b.calls, x) && b.calls[x].order == a.calls[x].order
    && (forall j :: AheadOf(b.calls, x, j) ==> AheadOf(a.calls, x, j))
    && Delay(cfg, b.calls, b.windows[e], x) <= Delay(cfg, a.calls, a.windows[e], x) - paid
  }

  lemma BoundaryGuarded(cfg: Config, w: Workload, s: Sim, e: nat, x: nat)
    requires Inv(cfg, w, s) && Fair(cfg, s.calls) && e < cfg.engines && Waits(s.calls, x) && s.calls[x].engine == e
    requires s.windows[e] == 0 || RunningOn(s.calls, e) == []
    requires Shape(cfg, w, s)
    ensures var r := ScheduleEngine(cfg, w, s, e);
      r.windows == s.windows[e := cfg.interval] && x < |r.calls|
        && (r.calls[x].status == Running || Guarded(r.calls, x))
  {
    hide Inv, ScheduleEngine, Refreshed, Selected, Sel, Stamps, ValidWorkload, ValidConfig, Victims, Slots, KeyLess,
      Fair, InOrder, Guarded, Room, RunCount, HoldCount, RefreshedKeys;
    ShapeSizes(cfg, w, s);
    Rescheduled(cfg, w, s, e);
    var refreshed, r := Refreshed(cfg, w, s.calls, s.entries, e, s.counter), ScheduleEngine(cfg, w, s, e);
    SelectLists(cfg, refreshed, r.counter, e, s.time);
    BoundaryKeeps(cfg, w, s, e, x, x);
    SelectedInLine(cfg, r.calls, Line(refreshed, e), e);
    if r.calls[x].status != Running {
      SelectGuards(cfg, r.calls, Line(refreshed, e), e, x);
    }
  }

  lemma BoundaryDelay(cfg: Config, w: Workload, s: Sim, e: nat, x: nat)
    requires Inv(cfg, w, s) && Fair(cfg, s.calls) && e < cfg.engines && Waits(s.calls, x) && s.calls[x].engine == e
    requires s.windows[e] == 0 || RunningOn(s.calls, e) == []
    requires Shape(cfg, w, s)
    ensures Nearer(cfg, s, ScheduleEngine(cfg, w, s, e), x, 0)
  {
    hide Inv, ScheduleEngine, Sel, Stamps, ValidWorkload, ValidConfig, Fair, Guarded, AheadOf, Charges, Debts;
    ShapeSizes(cfg, w, s);
    BoundaryKeeps(cfg, w, s, e, x, x);
    BoundaryGuarded(cfg, w, s, e, x);
    if ScheduleEngine(cfg, w, s, e).calls[x].status != Running {
      BoundaryCharges(cfg, w, s, e, x);
      BoundaryAhead(cfg, w, s, e, x);
      DebtsNonNegative(cfg, w, s, e);
    }
  }

  lemma BoundaryAhead(cfg: Config, w: Workload, s: Sim, e: nat, x: nat)
    requires Inv(cfg, w, s) && Fair(cfg, s.calls) && e < cfg.engines && Waits(s.calls, x) && s.calls[x].engine == e
    requires s.windows[e] == 0 || RunningOn(s.calls, e) == []
    requires Shape(cfg, w, s)
    ensures forall j :: AheadOf(ScheduleEngine(cfg, w, s, e).calls, x, j) ==> AheadOf(s.calls, x, j)
  {
    hide Inv, Shape, ScheduleEngine, Sel, KeyLess, Fair;
    ShapeSizes(cfg, w, s);
    ShapeSizes(cfg, w, ScheduleEngine(cfg, w, s, e));
    forall j | AheadOf(ScheduleEngine(cfg, w, s, e).calls, x, j) ensures AheadOf(s.calls, x, j) {
      BoundaryKeeps(cfg, w, s, e, x, j);
    }
  }

  lemma SelectedInLine(cfg: Config, calls: seq<Call>, line: seq<nat>, e: nat)
    requires Line(calls, e) == line
    requires RunningOn(calls, e) == line[..RunCount(cfg, line)]
    requires PrefetchedOn(calls, e) == line[RunCount(cfg, line)..HoldCount(cfg, line)]
    ensures forall i :: i in line <==> 0 <= i < |calls| && LiveOn(calls[i], e)
    ensures forall i :: 0 <= i < |calls| && calls[i].engine == e && calls[i].status == Running <==>
      i in line[..RunCount(cfg, line)]
    ensures forall i :: 0 <= i < |calls| && calls[i].engine == e && Resident(calls[i]) <==>
      i in line[..HoldCount(cfg, line)]
  {
    hide Sel;
    var run, hold := RunCount(cfg, line), HoldCount(cfg, line);
    SplitTake(line, run, hold);
    assert forall i :: i in line[..hold] <==> i in RunningOn(calls, e) || i in PrefetchedOn(calls, e);
  }

  lemma DebtsNonNegative(cfg: Config, w: Workload, s: Sim, e: nat)
    requires Inv(cfg, w, s)
    ensures Sum(Debts(s.calls, e)) >= 0
  {
    hide Shape, Stamps, AllAfterParents, AllPlaces, AllSlots;
    forall i | 0 <= i < |s.calls| ensures Debts(s.calls, e)[i] >= 0 {
      assert Books(s.calls[i], s.time);
    }
    SumNonNegative(Debts(s.calls, e));
  }

  lemma BoundaryCharges(cfg: Config, w: Workload, s: Sim, e: nat, x: nat)
    requires Inv(cfg, w, s) && Fair(cfg, s.calls) && e < cfg.engines && Waits(s.calls, x) && s.calls[x].engine == e
    requires s.windows[e] == 0 || RunningOn(s.calls, e) == []
    requires Shape(cfg, w, s) && e < |s.windows| && |ScheduleEngine(cfg, w, s, e).calls| == |s.calls|
    ensures var r := ScheduleEngine(cfg, w, s, e);
      Sum(Charges(cfg, r.calls, cfg.interval, x)) <= Sum(Charges(cfg, s.calls, s.windows[e], x))
  {
    hide Inv, Shape, ScheduleEngine, Sel, KeyLess, Fair, Room;
    ShapeSizes(cfg, w, s);
    var r := ScheduleEngine(cfg, w, s, e);
    forall i | 0 <= i < |s.calls|
      ensures Charges(cfg, r.calls, cfg.interval, x)[i] <= Charges(cfg, s.calls, s.windows[e], x)[i] {
      ChargeNonNegative(cfg, w, s, i, s.windows[e]);
      if AheadOf(r.calls, x, i) {
        BoundaryKeeps(cfg, w, s, e, x, i);
        NoVictimAhead(cfg, w, s, e, x, i);
        RoomRenewed(cfg, s.calls[i], r.calls[i], s.windows[e]);
      }
    }
    SumMonotone(Charges(cfg, r.calls, cfg.interval, x), Charges(cfg, s.calls, s.windows[e], x));
  }

  lemma ChargeNonNegative(cfg: Config, w: Workload, s: Sim, i: nat, window: nat)
    requires Inv(cfg, w, s) && Shape(cfg, w, s) && i < |s.calls|
    ensures Live(s.calls[i]) ==> Owed(s.calls[i]) >= 0 && Room(cfg, s.calls[i], window) >= 0
  {
    hide Stamps, AllAfterParents, AllPlaces, AllSlots, Ranked;
    assert Books(s.calls[i], s.time);
  }

  lemma BoundaryFair(cfg: Config, w: Workload, s: Sim, e: nat)
    requires Inv(cfg, w, s) && Fair(cfg, s.calls) && e < cfg.engines
    requires s.windows[e] == 0 || RunningOn(s.calls, e) == []
    ensures Fair(cfg, ScheduleEngine(cfg, w, s, e).calls)
  {
    hide Inv, Shape, ScheduleEngine, AheadOf;
    InvShape(cfg, w, s);
    var r := ScheduleEngine(cfg, w, s, e);
    forall i | 0 <= i < |r.calls| && Waiting(r.calls[i]) && Preemptive(cfg.policy) ensures r.calls[i].quantum > 0 {
      BoundaryQuantum(cfg, w, s, e, i);
    }
    forall h, k | 0 <= h < |r.calls| && 0 <= k < |r.calls| && Resident(r.calls[h]) && r.calls[h].queue == 0
      && AheadOf(r.calls, h, k)
      ensures Resident(r.calls[k])
    {
      BoundaryFairAt(cfg, w, s, e, h, k);
    }
  }

  lemma BoundaryQuantum(cfg: Config, w: Workload, s: Sim, e: nat, i: nat)
    requires Inv(cfg, w, s) && Fair(cfg, s.calls) && e < cfg.engines
    requires s.windows[e] == 0 || RunningOn(s.calls, e) == []
    requires var calls := ScheduleEngine(cfg, w, s, e).calls; i < |calls| && Waiting(calls[i]) && Preemptive(cfg.policy)
    ensures ScheduleEngine(cfg, w, s, e).calls[i].quantum > 0
  {
    hide Inv, Shape, ScheduleEngine, Refreshed, Selected, Sel, Stamps, Victims, Slots, KeyLess, InOrder;
    InvStart(cfg, w, s);
    ShapeSizes(cfg, w, s);
    Rescheduled(cfg, w, s, e);
    ShapeSizes(cfg, w, ScheduleEngine(cfg, w, s, e));
    ScheduleKeeps(cfg, w, s, e, i);
    if LiveOn(s.calls[i], e) {
      RefreshOne(cfg, w, s, e, i);
      SelectQuantum(cfg, Refreshed(cfg, w, s.calls, s.entries, e, s.counter), e, s.time, i);
    }
  }

  lemma BoundaryFairAt(cfg: Config, w: Workload, s: Sim, e: nat, h: nat, k: nat)
    requires Inv(cfg, w, s) && Fair(cfg, s.calls) && e < cfg.engines
    requires s.windows[e] == 0 || RunningOn(s.calls, e) == []
    requires var calls := ScheduleEngine(cfg, w, s, e).calls;
      h < |calls| && k < |calls| && Resident(calls[h]) && calls[h].queue == 0 && AheadOf(calls, h, k)
    ensures Resident(ScheduleEngine(cfg, w, s, e).calls[k])
  {
    hide Inv, Shape, ScheduleEngine, Refreshed, Selected, Sel, Stamps, Victims, Slots, KeyLess, InOrder, Fair;
    InvStart(cfg, w, s);
    ShapeSizes(cfg, w, s);
    Rescheduled(cfg, w, s, e);
    var refreshed, r := Refreshed(cfg, w, s.calls, s.entries, e, s.counter), ScheduleEngine(cfg, w, s, e);
    ShapeSizes(cfg, w, r);
    ScheduleKeeps(cfg, w, s, e, h);
    ScheduleKeeps(cfg, w, s, e, k);
    if r.calls[h].engine == e {
      var line := Line(refreshed, e);
      SelectLists(cfg, refreshed, r.counter, e, s.time);
      SelectedInLine(cfg, r.calls, line, e);
      PrefixClosed(r.calls, line, HoldCount(cfg, line), h, k);
    } else {
      FairAt(cfg, s.calls, h, k);
    }
  }

  /** What stands before a member of a prefix of the line is in the prefix. */
  lemma PrefixClosed(calls: seq<Call>, line: seq<nat>, hold: nat, h: nat, k: nat)
    requires InOrder(calls, line) && hold <= |line| && h in line[..hold] && k in line && k < |calls| && h < |calls|
    requires KeyLess(calls[k], calls[h])
    ensures k in line[..hold]
  {
    var a :| 0 <= a < hold && line[a] == h;
    var b :| 0 <= b < |line| && line[b] == k;
    TakenAt(line, hold, b);
  }

  // ---- Scheduling phase --------------------------------------------------------------

  lemma ScheduleView(cfg: Config, w: Workload, s: Sim, d: nat, e: nat)
    requires Inv(cfg, w, s) && d < cfg.engines && e < cfg.engines && d != e
    ensures SameView(s, ScheduleEngine(cfg, w, s, d), e)
  {
    hide ScheduleEngine, Inv, Shape, Sel;
    InvStart(cfg, w, s);
    ShapeSizes(cfg, w, s);
    ShapeSizes(cfg, w, ScheduleEngine(cfg, w, s, d));
    ScheduleOther(cfg, w, s, d, e);
    forall i | 0 <= i < |s.calls|
      ensures var c := ScheduleEngine(cfg, w, s, d).calls[i];
        c.engine == s.calls[i].engine && (s.calls[i].engine == e ==> c == s.calls[i])
    {
      ScheduleKeeps(cfg, w, s, d, i);
    }
  }

  lemma FrozenView(cfg: Config, w: Workload, s: Sim, e: nat)
    requires Inv(cfg, w, s) && e < cfg.engines && s.windows[e] > 0 && RunningOn(s.calls, e) != []
    ensures ScheduleEngine(cfg, w, s, e) == s
  {
    hide Fill, Sel, Stamps, AllBooks, AllAfterParents, AllPlaces, AllSlots, Shape;
    SlotsAt(cfg, s.calls, e);
    FillIdle(cfg, s.calls, e, s.time);
  }

  lemma ScheduleFair(cfg: Config, w: Workload, s: Sim, e: nat)
    requires Inv(cfg, w, s) && Fair(cfg, s.calls) && e < cfg.engines
    ensures Fair(cfg, ScheduleEngine(cfg, w, s, e).calls)
  {
    hide ScheduleEngine, Inv, Fair, Sel;
    InvShape(cfg, w, s);
    ShapeSizes(cfg, w, s);
    if s.windows[e] == 0 || RunningOn(s.calls, e) == [] {
      BoundaryFair(cfg, w, s, e);
    } else {
      FrozenView(cfg, w, s, e);
    }
  }

  lemma ScheduleNearer(cfg: Config, w: Workload, s: Sim, x: nat)
    requires Inv(cfg, w, s) && Fair(cfg, s.calls) && Waits(s.calls, x) && s.calls[x].engine < cfg.engines
      && Shape(cfg, w, s)
    ensures Nearer(cfg, s, ScheduleEngine(cfg, w, s, s.calls[x].engine), x, 0)
  {
    hide ScheduleEngine, Inv, Fair, Sel, Delay, Shape;
    var e := s.calls[x].engine;
    ShapeSizes(cfg, w, s);
    if s.windows[e] == 0 || RunningOn(s.calls, e) == [] {
      BoundaryDelay(cfg, w, s, e, x);
    } else {
      FrozenView(cfg, w, s, e);
    }
  }

  lemma ViewNearer(cfg: Config, a: Sim, b: Sim, c: Sim, x: nat, paid: int)
    requires Nearer(cfg, a, b, x, paid) && x < |b.calls| && SameView(b, c, b.calls[x].engine)
    ensures Nearer(cfg, a, c, x, paid)
  {
    hide Delay, AheadOf;
    ViewDelay(cfg, b, c, x);
  }

  lemma NearerView(cfg: Config, a: Sim, b: Sim, c: Sim, x: nat, paid: int)
    requires x < |a.calls| && SameView(a, b, a.calls[x].engine) && Nearer(cfg, b, c, x, paid)
    ensures Nearer(cfg, a, c, x, paid)
  {
    hide Delay, AheadOf;
    ViewDelay(cfg, a, b, x);
  }

  lemma ViewTwice(a: Sim, b: Sim, c: Sim, e: nat)
    requires SameView(a, b, e) && SameView(b, c, e)
    ensures SameView(a, c, e)
  {
  }

  lemma ViewSelf(s: Sim, e: nat)
    requires e < |s.windows|
    ensures SameView(s, s, e)
  {
  }

  lemma {:induction false} ScheduleUpToNearer(cfg: Config, w: Workload, s: Sim, k: nat, x: nat)
    requires Inv(cfg, w, s) && Fair(cfg, s.calls) && Waits(s.calls, x) && x < |s.calls|
      && s.calls[x].engine < cfg.engines
    requires Shape(cfg, w, s) && k <= cfg.engines
    ensures var e, r := s.calls[x].engine, ScheduleUpTo(cfg, w, s, k);
      && Fair(cfg, r.calls)
      && (k <= e ==> SameView(s, r, e))
      && (k > e ==> Nearer(cfg, s, r, x, 0))
  {
    hide *;
    ShapeSizes(cfg, w, s);
    ScheduleUnroll(cfg, w, s, k);
    var e := s.calls[x].engine;
    if k == 0 {
      ViewSelf(s, e);
    } else {
      ScheduleUpToNearer(cfg, w, s, k - 1, x);
      ScheduleUpToInv(cfg, w, s, k - 1);
      var mid := ScheduleUpTo(cfg, w, s, k - 1);
      InvShape(cfg, w, mid);
      ShapeSizes(cfg, w, mid);
      ScheduleFair(cfg, w, mid, k - 1);
      if k - 1 == e {
        ViewWaits(s, mid, x);
        ScheduleNearer(cfg, w, mid, x);
        NearerView(cfg, s, mid, ScheduleEngine(cfg, w, mid, e), x, 0);
      } else {
        ScheduleView(cfg, w, mid, k - 1, e);
        if k - 1 < e {
          ViewTwice(s, mid, ScheduleEngine(cfg, w, mid, k - 1), e);
        } else {
          NearerEngine(cfg, s, mid, x, 0);
          ViewNearer(cfg, s, mid, ScheduleEngine(cfg, w, mid, k - 1), x, 0);
        }
      }
    }
  }

  lemma ViewWaits(a: Sim, b: Sim, x: nat)
    requires x < |a.calls| && SameView(a, b, a.calls[x].engine)
    ensures x < |b.calls| && b.calls[x] == a.calls[x] && Waits(b.calls, x) == Waits(a.calls, x)
  {
  }

  lemma NearerEngine(cfg: Config, a: Sim, b: Sim, x: nat, paid: int)
    requires Nearer(cfg, a, b, x, paid)
    ensures x < |a.calls| && x < |b.calls| && b.calls[x].engine == a.calls[x].engine
  {
  }

  // ---- Execution phase ---------------------------------------------------------------

  lemma TickView(cfg: Config, w: Workload, s: Sim, d: nat, e: nat)
    requires Shape(cfg, w, s) && d < cfg.engines && e < cfg.engines && d != e
    ensures SameView(s, TickEngine(cfg, w, s, d), e)
  {
    hide TickEngine, ValidWorkload, ValidConfig;
    TickOthers(cfg, w, s, d, e);
    TickWindows(cfg, w, s, d, e);
  }

  /** How the dues of one call ahead change in a tick. */
  lemma DuesDrop(cfg: Config, c: Call, c': Call, window: nat, window': nat, time: int)
    requires Live(c) && TicksTo(c, c', time) && Books(c, time) && cfg.interval > 0
    requires window' <= window && (Executes(c) ==> window > 0 && window' == window - 1)
    ensures Live(c') ==>
      Owed(c') + Room(cfg, c', window') <= Owed(c) + Room(cfg, c, window) - if c.status == Running then 1 else 0
    ensures Owed(c) + Room(cfg, c, window) >= if c.status == Running then 1 else 0
  {
  }

  lemma DebtDrop(c: Call, c': Call, e: nat, time: int)
    requires Live(c) && TicksTo(c, c', time) && Books(c, time) && c.engine == e
    ensures Debt(c', e) <= Debt(c, e) - if c.status == Running && !Executes(c) then 1 else 0
    ensures Debt(c, e) >= 0
  {
  }

  lemma TickKeys(c: Call, c': Call, time: int)
    requires Live(c) && TicksTo(c, c', time)
    ensures c'.queue == c.queue && c'.order == c.order && c'.engine == c.engine
    ensures Live(c') || c'.status == Finished
    ensures c.status == Running ==> c'.status == Running || c'.status == Finished
    ensures c.status == Queued ==> c'.status == Queued
    ensures c.status == Prefetched ==> c'.status == Prefetched || c'.status == Running
    ensures Waiting(c') ==> c'.quantum == c.quantum
  {
  }

  /** Whoever is ahead after a tick was ahead before it. */
  lemma TickAhead(cfg: Config, w: Workload, s: Sim, e: nat, x: nat, j: nat)
    requires Shape(cfg, w, s) && e < cfg.engines && x < |s.calls| && LiveOn(s.calls[x], e)
    ensures var r := TickEngine(cfg, w, s, e);
      && |r.calls| == |s.calls| && (AheadOf(r.calls, x, j) ==> AheadOf(s.calls, x, j))
      && (AheadOf(s.calls, x, j) && Live(r.calls[j]) ==> AheadOf(r.calls, x, j))
  {
    hide TickEngine, Shape, TicksTo;
    var r := TickEngine(cfg, w, s, e);
    ShapeSizes(cfg, w, s);
    ShapeSizes(cfg, w, r);
    TickCallKeeps(cfg, w, s, e, x);
    TickKeys(s.calls[x], r.calls[x], s.time);
    if j < |s.calls| {
      TickCallKeeps(cfg, w, s, e, j);
      if LiveOn(s.calls[j], e) { TickKeys(s.calls[j], r.calls[j], s.time); }
    }
  }

  lemma TickWindow(cfg: Config, w: Workload, s: Sim, e: nat)
    requires Shape(cfg, w, s) && e < cfg.engines && s.windows[e] > 0
    ensures var r := TickEngine(cfg, w, s, e);
      |r.windows| == |s.windows| && r.windows[e] == if AnyExecutes(s.calls, e) then s.windows[e] - 1 else s.windows[e]
  {
    hide Sel, Ticked, Fill, Settle, Rows, ValidConfig, ValidWorkload, AnyExecutes;
  }

  lemma SomeExecutes(calls: seq<Call>, e: nat, i: nat)
    requires i < |calls| && calls[i].engine == e && Executes(calls[i])
    ensures AnyExecutes(calls, e)
  {
  }

  lemma BooksAt(cfg: Config, w: Workload, s: Sim, e: nat, i: nat)
    requires Midway(cfg, w, s, e) && i < |s.calls| && s.calls[i].engine == e
    ensures Books(s.calls[i], s.time) && cfg.interval > 0
  {
    hide Stamps, AllAfterParents, AllPlaces, AllSlots, ValidWorkload;
    assert Books(s.calls[i], if s.calls[i].engine < e then s.time + 1 else s.time);
  }

  lemma TickCharges(cfg: Config, w: Workload, s: Sim, e: nat, x: nat, i: nat)
    requires Midway(cfg, w, s, e) && Shape(cfg, w, s) && e < cfg.engines && x < |s.calls| && LiveOn(s.calls[x], e)
      && s.windows[e] > 0
    requires i < |s.calls| == |TickEngine(cfg, w, s, e).calls| && e < |TickEngine(cfg, w, s, e).windows|
    ensures var r := TickEngine(cfg, w, s, e);
      Charge(cfg, r.calls, r.windows[e], x, i) <=
        Charge(cfg, s.calls, s.windows[e], x, i) - if AheadOf(s.calls, x, i) && s.calls[i].status == Running then 1
          else 0
  {
    hide TickEngine, Shape, TicksTo, Midway, Room, Books, Executes, AnyExecutes, KeyLess;
    var r := TickEngine(cfg, w, s, e);
    TickAhead(cfg, w, s, e, x, i);
    TickWindow(cfg, w, s, e);
    if AheadOf(s.calls, x, i) {
      BooksAt(cfg, w, s, e, i);
      TickCallKeeps(cfg, w, s, e, i);
      if Executes(s.calls[i]) { SomeExecutes(s.calls, e, i); }
      DuesDrop(cfg, s.calls[i], r.calls[i], s.windows[e], r.windows[e], s.time);
      if AheadOf(r.calls, x, i) {}
    }
  }

  lemma TickDebts(cfg: Config, w: Workload, s: Sim, e: nat, i: nat)
    requires Midway(cfg, w, s, e) && Shape(cfg, w, s) && e < cfg.engines
    requires i < |s.calls| == |TickEngine(cfg, w, s, e).calls|
    ensures var r := TickEngine(cfg, w, s, e);
      && Debt(r.calls[i], e) <= Debt(s.calls[i], e)
         - (if LiveOn(s.calls[i], e) && s.calls[i].status == Running && !Executes(s.calls[i]) then 1 else 0)
  {
    hide TickEngine, Shape, TicksTo, Midway, Books, Executes;
    TickCallKeeps(cfg, w, s, e, i);
    if LiveOn(s.calls[i], e) {
      BooksAt(cfg, w, s, e, i);
      DebtDrop(s.calls[i], TickEngine(cfg, w, s, e).calls[i], e, s.time);
    }
  }

  /** Every tick of a served engine pays for itself: out of the charges if only calls ahead run, out of the debts and
      the window otherwise. */
  lemma TickPays(cfg: Config, w: Workload, s: Sim, e: nat, x: nat)
    requires Midway(cfg, w, s, e) && Shape(cfg, w, s) && e < cfg.engines && x < |s.calls| && LiveOn(s.calls[x], e)
    requires s.windows[e] > 0 && RunningOn(s.calls, e) != []
    ensures var r := TickEngine(cfg, w, s, e);
      && |r.calls| == |s.calls| && |r.windows| == |s.windows|
      && Sum(Charges(cfg, r.calls, r.windows[e], x)) <= Sum(Charges(cfg, s.calls, s.windows[e], x))
         - (if Guarded(s.calls, x) then 1 else 0)
      && Sum(Debts(r.calls, e)) + r.windows[e] < Sum(Debts(s.calls, e)) + s.windows[e]
  {
    hide TickEngine, Shape, Midway, Charge, Debt, Sel, Executes, AnyExecutes, AheadOf;
    var r := TickEngine(cfg, w, s, e);
    ShapeSizes(cfg, w, s);
    ShapeSizes(cfg, w, r);
    TickWindow(cfg, w, s, e);
    var i := RunningOn(s.calls, e)[0];
    assert i in RunningOn(s.calls, e);
    forall j | 0 <= j < |s.calls|
      ensures Charges(cfg, r.calls, r.windows[e], x)[j] <= Charges(cfg, s.calls, s.windows[e], x)[j] {
      TickCharges(cfg, w, s, e, x, j);
    }
    TickCharges(cfg, w, s, e, x, i);
    SumMonotone(Charges(cfg, r.calls, r.windows[e], x), Charges(cfg, s.calls, s.windows[e], x));
    forall j | 0 <= j < |s.calls| ensures Debts(r.calls, e)[j] <= Debts(s.calls, e)[j] {
      TickDebts(cfg, w, s, e, j);
    }
    TickDebts(cfg, w, s, e, i);
    SumMonotone(Debts(r.calls, e), Debts(s.calls, e));
    if Executes(s.calls[i]) { SomeExecutes(s.calls, e, i); }
  }

  /** The fill after a tick takes the head of the prefetched calls, so it never lets a call from behind pass. */
  lemma TickGuards(cfg: Config, w: Workload, s: Sim, e: nat, x: nat)
    requires Midway(cfg, w, s, e) && Shape(cfg, w, s) && e < cfg.engines && x < |s.calls| && LiveOn(s.calls[x], e)
    requires Guarded(s.calls, x) && |TickEngine(cfg, w, s, e).calls| == |s.calls|
      && Waiting(TickEngine(cfg, w, s, e).calls[x])
    ensures Guarded(TickEngine(cfg, w, s, e).calls, x)
  {
    hide TickEngine, Shape, Midway, Sel, TicksTo, KeyLess;
    var r := TickEngine(cfg, w, s, e);
    TickCallKeeps(cfg, w, s, e, x);
    TickKeys(s.calls[x], r.calls[x], s.time);
    forall i | 0 <= i < |r.calls| && r.calls[i].engine == e && r.calls[i].status == Running
      ensures AheadOf(r.calls, x, i) {
      TickAhead(cfg, w, s, e, x, i);
      TickCallKeeps(cfg, w, s, e, i);
      if LiveOn(s.calls[i], e) {
        TickKeys(s.calls[i], r.calls[i], s.time);
        if s.calls[i].status == Prefetched && s.calls[x].status == Prefetched {
          FilledAhead(cfg, w, s, e, x, i);
        }
      }
    }
    if r.calls[x].status != Prefetched {
      forall i | 0 <= i < |r.calls| && r.calls[i].engine == e && r.calls[i].status == Prefetched
        ensures AheadOf(r.calls, x, i) {
        TickAhead(cfg, w, s, e, x, i);
        TickCallKeeps(cfg, w, s, e, i);
        if LiveOn(s.calls[i], e) {
          TickKeys(s.calls[i], r.calls[i], s.time);
        }
      }
    }
  }

  /** Of two prefetched calls the fill takes the one that stands first. */
  lemma FilledAhead(cfg: Config, w: Workload, s: Sim, e: nat, x: nat, i: nat)
    requires Midway(cfg, w, s, e) && Shape(cfg, w, s) && e < cfg.engines && x < |s.calls| && i < |s.calls|
    requires LiveOn(s.calls[x], e) && LiveOn(s.calls[i], e) && s.calls[i].status == Prefetched
      && s.calls[x].status == Prefetched
    requires |TickEngine(cfg, w, s, e).calls| == |s.calls|
    requires TickEngine(cfg, w, s, e).calls[i].status == Running
      && TickEngine(cfg, w, s, e).calls[x].status == Prefetched
    ensures AheadOf(s.calls, x, i)
  {
    hide Shape, Midway, Sel, KeyLess, Ticked, Fill, Settle, Rows, Stamps, InOrder;
    var ticked := Ticked(s.calls, e, s.time);
    MidwayOrder(cfg, w, s, e);
    TickedLists(cfg, s.calls, s.counter, e, s.time);
    var pre, started := PrefetchedOn(ticked, e), FillList(ticked, e, cfg.batch);
    assert i in started && x in pre && x !in started;
    SelFacts(ticked, s.counter, e, {Prefetched});
    HeadFirst(ticked, pre, |started|, i, x);
    TickedStatus(s.calls, e, s.time);
    SameKey(s.calls[i], ticked[i], s.calls[x], ticked[x]);
  }

  lemma MidwayOrder(cfg: Config, w: Workload, s: Sim, e: nat)
    requires Midway(cfg, w, s, e) && e < cfg.engines
    ensures Stamps(s.calls, s.counter) && Slots(cfg, s.calls, e)
  {
    hide Stamps, AllBooks, AllAfterParents, AllPlaces, AllSlots, Slots, Shape;
    SlotsAt(cfg, s.calls, e);
  }

  lemma HeadFirst(calls: seq<Call>, list: seq<nat>, k: nat, i: nat, x: nat)
    requires InOrder(calls, list) && k <= |list| && i in list[..k] && x in list && x !in list[..k]
    ensures i < |calls| && x < |calls| && KeyLess(calls[i], calls[x])
  {
    hide KeyLess;
    var a :| 0 <= a < k && list[a] == i;
    var b :| 0 <= b < |list| && list[b] == x;
    TakenAt(list, k, b);
  }

  lemma TickNearer(cfg: Config, w: Workload, s: Sim, e: nat, x: nat)
    requires Midway(cfg, w, s, e) && Shape(cfg, w, s) && e < cfg.engines && Waits(s.calls, x) && s.calls[x].engine == e
      && e < |s.windows|
    requires s.windows[e] > 0 && RunningOn(s.calls, e) != []
    ensures Nearer(cfg, s, TickEngine(cfg, w, s, e), x, 1)
  {
    hide TickEngine, Shape, Midway, Sel, TicksTo, AheadOf, Guarded;
    var r := TickEngine(cfg, w, s, e);
    ShapeSizes(cfg, w, s);
    ShapeSizes(cfg, w, r);
    TickCallKeeps(cfg, w, s, e, x);
    TickKeys(s.calls[x], r.calls[x], s.time);
    TickPays(cfg, w, s, e, x);
    if Waits(r.calls, x) {
      forall j: nat ensures AheadOf(r.calls, x, j) ==> AheadOf(s.calls, x, j) {
        TickAhead(cfg, w, s, e, x, j);
      }
      if Guarded(s.calls, x) {
        TickGuards(cfg, w, s, e, x);
      } else {
        MidwayDebts(cfg, w, r, e + 1, e) by { TickInv(cfg, w, s, e); }
      }
    }
  }

  lemma MidwayDebts(cfg: Config, w: Workload, s: Sim, k: nat, e: nat)
    requires Midway(cfg, w, s, k)
    ensures Sum(Debts(s.calls, e)) >= 0
  {
    hide Shape, Stamps, AllAfterParents, AllPlaces, AllSlots;
    forall i | 0 <= i < |s.calls| ensures Debts(s.calls, e)[i] >= 0 {
      assert Books(s.calls[i], if s.calls[i].engine < k then s.time + 1 else s.time);
    }
    SumNonNegative(Debts(s.calls, e));
  }

  lemma TickFair(cfg: Config, w: Workload, s: Sim, e: nat)
    requires Shape(cfg, w, s) && e < cfg.engines && Fair(cfg, s.calls)
    ensures Fair(cfg, TickEngine(cfg, w, s, e).calls)
  {
    hide TickEngine, Shape, TicksTo, KeyLess;
    var r := TickEngine(cfg, w, s, e);
    ShapeSizes(cfg, w, s);
    ShapeSizes(cfg, w, r);
    forall i | 0 <= i < |s.calls|
      ensures r.calls[i] == s.calls[i] || (LiveOn(s.calls[i], e) && TicksTo(s.calls[i], r.calls[i], s.time))
    {
      TickCallKeeps(cfg, w, s, e, i);
    }
    forall i | 0 <= i < |r.calls| && Waiting(r.calls[i]) && Preemptive(cfg.policy) ensures r.calls[i].quantum > 0 {
      if r.calls[i] != s.calls[i] { TickKeys(s.calls[i], r.calls[i], s.time); }
    }
    forall h, k | 0 <= h < |r.calls| && 0 <= k < |r.calls| && Resident(r.calls[h]) && r.calls[h].queue == 0
      && AheadOf(r.calls, h, k)
      ensures Resident(r.calls[k])
    {
      if r.calls[h] != s.calls[h] { TickKeys(s.calls[h], r.calls[h], s.time); }
      if r.calls[k] != s.calls[k] { TickKeys(s.calls[k], r.calls[k], s.time); }
      SameKey(s.calls[k], r.calls[k], s.calls[h], r.calls[h]);
      FairAt(cfg, s.calls, h, k);
    }
  }

  lemma StartedStays(cfg: Config, w: Workload, s: Sim, e: nat, x: nat)
    requires Shape(cfg, w, s) && e < cfg.engines && Started(s.calls, x)
    ensures Started(TickEngine(cfg, w, s, e).calls, x) && TickEngine(cfg, w, s, e).calls[x].engine == s.calls[x].engine
  {
    hide TickEngine, Shape, TicksTo;
    ShapeSizes(cfg, w, s);
    ShapeSizes(cfg, w, TickEngine(cfg, w, s, e));
    TickCallKeeps(cfg, w, s, e, x);
    if LiveOn(s.calls[x], e) {
      TickKeys(s.calls[x], TickEngine(cfg, w, s, e).calls[x], s.time);
    }
  }

  lemma {:induction false} TickUpToNearer(cfg: Config, w: Workload, s: Sim, k: nat, x: nat)
    requires Inv(cfg, w, s) && Fair(cfg, s.calls) && Shape(cfg, w, s) && k <= cfg.engines
    requires x < |s.calls| && s.calls[x].engine < cfg.engines && |s.windows| == cfg.engines
    requires Waits(s.calls, x) ==> s.windows[s.calls[x].engine] > 0 && RunningOn(s.calls, s.calls[x].engine) != []
    requires Waits(s.calls, x) || Started(s.calls, x)
    ensures var e, r := s.calls[x].engine, TickUpTo(cfg, w, s, k);
      && Fair(cfg, r.calls)
      && (k <= e ==> SameView(s, r, e))
      && (k > e ==> Nearer(cfg, s, r, x, 1))
  {
    hide *;
    ShapeSizes(cfg, w, s);
    TickUnroll(cfg, w, s, k);
    var e := s.calls[x].engine;
    if k == 0 {
      ViewSelf(s, e);
    } else {
      TickUpToNearer(cfg, w, s, k - 1, x);
      TickUpToInv(cfg, w, s, k - 1);
      var mid := TickUpTo(cfg, w, s, k - 1);
      ShapeSizes(cfg, w, mid);
      TickFair(cfg, w, mid, k - 1);
      if k - 1 == e {
        ViewWaits(s, mid, x);
        TickAt(cfg, w, s, mid, x);
      } else {
        TickView(cfg, w, mid, k - 1, e);
        if k - 1 < e {
          ViewTwice(s, mid, TickEngine(cfg, w, mid, k - 1), e);
        } else {
          NearerEngine(cfg, s, mid, x, 1);
          ViewNearer(cfg, s, mid, TickEngine(cfg, w, mid, k - 1), x, 1);
        }
      }
    }
  }

  lemma TickAt(cfg: Config, w: Workload, s: Sim, mid: Sim, x: nat)
    requires x < |s.calls| && SameView(s, mid, s.calls[x].engine) && s.calls[x].engine < cfg.engines
    requires Midway(cfg, w, mid, s.calls[x].engine) && Shape(cfg, w, mid)
    requires Waits(s.calls, x) ==> s.windows[s.calls[x].engine] > 0 && RunningOn(s.calls, s.calls[x].engine) != []
    requires Waits(s.calls, x) || Started(s.calls, x)
    ensures Nearer(cfg, s, TickEngine(cfg, w, mid, s.calls[x].engine), x, 1)
  {
    hide TickEngine, Shape, Midway, Sel, Delay, AheadOf;
    var e := s.calls[x].engine;
    ShapeSizes(cfg, w, mid);
    ShapeSizes(cfg, w, TickEngine(cfg, w, mid, e));
    if Waits(s.calls, x) {
      ViewRuns(s, mid, e);
      TickNearer(cfg, w, mid, e, x);
      NearerView(cfg, s, mid, TickEngine(cfg, w, mid, e), x, 1);
    } else {
      StartedStays(cfg, w, mid, e, x);
    }
  }

  lemma ViewRuns(a: Sim, b: Sim, e: nat)
    requires SameView(a, b, e) && RunningOn(a.calls, e) != []
    ensures RunningOn(b.calls, e) != []
  {
    hide Sel;
    var i := RunningOn(a.calls, e)[0];
    assert i in RunningOn(a.calls, e);
    assert i in RunningOn(b.calls, e);
  }

  // ---- Whole steps -----------------------------------------------------------------------

  lemma {:induction false} ScheduleUpToServes(cfg: Config, w: Workload, s: Sim, k: nat, e: nat)
    requires Inv(cfg, w, s) && Shape(cfg, w, s) && e < k <= cfg.engines
    ensures |ScheduleUpTo(cfg, w, s, k).windows| == cfg.engines && Served(ScheduleUpTo(cfg, w, s, k), e)
  {
    hide *;
    ScheduleUnroll(cfg, w, s, k);
    ScheduleUpToInv(cfg, w, s, k - 1);
    var mid := ScheduleUpTo(cfg, w, s, k - 1);
    ShapeSizes(cfg, w, s);
    InvShape(cfg, w, mid);
    ShapeSizes(cfg, w, mid);
    ShapeSizes(cfg, w, ScheduleEngine(cfg, w, mid, k - 1));
    ScheduleServes(cfg, w, mid, k - 1);
    if e < k - 1 {
      ScheduleUpToServes(cfg, w, s, k - 1, e);
    }
  }

  lemma ServedLine(s: Sim, e: nat, x: nat)
    requires e < |s.windows| && Served(s, e) && x < |s.calls| && LiveOn(s.calls[x], e)
    ensures RunningOn(s.calls, e) != [] && s.windows[e] > 0
  {
    hide Sel;
  }

  lemma NearerTwice(cfg: Config, a: Sim, b: Sim, c: Sim, x: nat, p: int, q: int)
    requires Nearer(cfg, a, b, x, p) && Nearer(cfg, b, c, x, q) && (Started(b.calls, x) ==> Started(c.calls, x))
    ensures Nearer(cfg, a, c, x, p + q)
  {
    hide Delay, AheadOf;
  }

  /** One step brings a waiting call of the first queue one tick closer to its start. */
  lemma StepNearer(cfg: Config, w: Workload, s: Sim, x: nat)
    requires Inv(cfg, w, s) && Shape(cfg, w, s) && s.time <= cfg.maxTime && Fair(cfg, s.calls) && Waits(s.calls, x)
    ensures Nearer(cfg, s, Step(cfg, w, s), x, 1)
  {
    hide Inv, Shape, ReleaseUpTo, ScheduleUpTo, TickUpTo, Step, Fair, Delay, AheadOf, Sel, NextTime, Served, SameView,
      Started;
    ShapeSizes(cfg, w, s);
    StepResult(cfg, w, s);
    PlacedEngine(cfg, w, s, x);
    var e := s.calls[x].engine;
    ReleaseUpToDelay(cfg, w, s, |s.calls|, x, s.windows[e]);
    ReleaseUpToCalls(cfg, w, s, |s.calls|);
    ReleaseUpToInv(cfg, w, s, |s.calls|);
    var a := Released(cfg, w, s);
    InvShape(cfg, w, a);
    ShapeSizes(cfg, w, a);
    ScheduleUpToNearer(cfg, w, a, cfg.engines, x);
    ScheduleUpToInv(cfg, w, a, cfg.engines);
    ScheduleUpToServes(cfg, w, a, cfg.engines, e);
    var b := ScheduleUpTo(cfg, w, a, cfg.engines);
    InvShape(cfg, w, b);
    ShapeSizes(cfg, w, b);
    WaitsOrStarted(cfg, a, b, x, 0);
    if Waits(b.calls, x) {
      ServedLine(b, e, x);
    }
    TickUpToNearer(cfg, w, b, cfg.engines, x);
    var c := TickUpTo(cfg, w, b, cfg.engines);
    TickUpToStarted(cfg, w, b, cfg.engines, x);
    NearerTwice(cfg, a, b, c, x, 0, 1);
  }

  lemma WaitsOrStarted(cfg: Config, a: Sim, b: Sim, x: nat, paid: int)
    requires Nearer(cfg, a, b, x, paid)
    ensures x < |b.calls| && (Waits(b.calls, x) || Started(b.calls, x))
    ensures Waits(b.calls, x) ==> LiveOn(b.calls[x], b.calls[x].engine)
  {
    hide Delay, AheadOf;
  }

  lemma {:induction false} TickUpToStarted(cfg: Config, w: Workload, s: Sim, k: nat, x: nat)
    requires Shape(cfg, w, s) && k <= cfg.engines && x < |s.calls|
    ensures Started(s.calls, x) ==> Started(TickUpTo(cfg, w, s, k).calls, x)
  {
    hide *;
    TickUnroll(cfg, w, s, k);
    if k > 0 {
      TickUpToStarted(cfg, w, s, k - 1, x);
      if Started(s.calls, x) {
        StartedStays(cfg, w, TickUpTo(cfg, w, s, k - 1), k - 1, x);
      }
    }
  }

  lemma PlacedEngine(cfg: Config, w: Workload, s: Sim, x: nat)
    requires Inv(cfg, w, s) && x < |s.calls| && Live(s.calls[x])
    ensures s.calls[x].engine < cfg.engines
  {
    assert Placed(cfg, s.calls[x]);
  }

  // ---- Whole runs --------------------------------------------------------------------------

  lemma {:induction false} ScheduleUpToFair(cfg: Config, w: Workload, s: Sim, k: nat)
    requires Inv(cfg, w, s) && Shape(cfg, w, s) && k <= cfg.engines && Fair(cfg, s.calls)
    ensures Fair(cfg, ScheduleUpTo(cfg, w, s, k).calls)
  {
    hide *;
    ScheduleUnroll(cfg, w, s, k);
    if k > 0 {
      ScheduleUpToFair(cfg, w, s, k - 1);
      ScheduleUpToInv(cfg, w, s, k - 1);
      ScheduleFair(cfg, w, ScheduleUpTo(cfg, w, s, k - 1), k - 1);
    }
  }

  lemma {:induction false} TickUpToFair(cfg: Config, w: Workload, s: Sim, k: nat)
    requires Shape(cfg, w, s) && k <= cfg.engines && Fair(cfg, s.calls)
    ensures Fair(cfg, TickUpTo(cfg, w, s, k).calls)
  {
    hide *;
    TickUnroll(cfg, w, s, k);
    if k > 0 {
      TickUpToFair(cfg, w, s, k - 1);
      TickFair(cfg, w, TickUpTo(cfg, w, s, k - 1), k - 1);
    }
  }

  lemma StepFair(cfg: Config, w: Workload, s: Sim)
    requires Inv(cfg, w, s) && Shape(cfg, w, s) && s.time <= cfg.maxTime && Fair(cfg, s.calls)
    ensures Fair(cfg, Step(cfg, w, s).calls)
  {
    hide Inv, Shape, ReleaseUpTo, ScheduleUpTo, TickUpTo, Step, Fair, NextTime;
    StepResult(cfg, w, s);
    ReleaseUpToFair(cfg, w, s, |s.calls|);
    ReleaseUpToInv(cfg, w, s, |s.calls|);
    var a := Released(cfg, w, s);
    InvShape(cfg, w, a);
    ScheduleUpToFair(cfg, w, a, cfg.engines);
    TickUpToFair(cfg, w, ScheduleUpTo(cfg, w, a, cfg.engines), cfg.engines);
  }

  /** In every state of every run waiting calls have an unused quantum, and on every engine the resident calls of the
      first queue are the oldest of that queue. */
  lemma {:induction false} ReachFair(cfg: Config, w: Workload, n: nat)
    requires ValidWorkload(w) && ValidConfig(cfg, w)
    ensures Fair(cfg, Reach(cfg, w, n).calls)
  {
    hide *;
    ReachUnroll(cfg, w, n);
    if n == 0 {
      InitPending(cfg, w);
      NobodyWaits(cfg, Init(cfg, w).calls);
    } else {
      ReachFair(cfg, w, n - 1);
      ReachInv(cfg, w, n - 1);
      var s := Reach(cfg, w, n - 1);
      if !(AllFinished(s) || s.time > cfg.maxTime) {
        StepFair(cfg, w, s);
      }
    }
  }

  lemma NobodyWaits(cfg: Config, calls: seq<Call>)
    requires forall i :: 0 <= i < |calls| ==> calls[i].status == Pending
    ensures Fair(cfg, calls)
  {
  }

  ghost predicate WaitsAt(cfg: Config, w: Workload, n: nat, x: nat)
    requires ValidWorkload(w) && ValidConfig(cfg, w)
  {
    Waits(Reach(cfg, w, n).calls, x)
  }

  /** The bound at the state after `n` steps. */
  ghost function DelayAt(cfg: Config, w: Workload, n: nat, x: nat): int
    requires ValidWorkload(w) && ValidConfig(cfg, w) && WaitsAt(cfg, w, n, x)
  {
    var s := Reach(cfg, w, n);
    if s.calls[x].engine < |s.windows| then Delay(cfg, s.calls, s.windows[s.calls[x].engine], x) else 0
  }

  /** While a call waits in the first queue nobody gets ahead of it, and every step brings it one tick closer to its
      start. */
  lemma WaitingStep(cfg: Config, w: Workload, n: nat, x: nat)
    requires ValidWorkload(w) && ValidConfig(cfg, w) && WaitsAt(cfg, w, n, x) && Reach(cfg, w, n).time <= cfg.maxTime
    ensures WaitsAt(cfg, w, n + 1, x) || Started(Reach(cfg, w, n + 1).calls, x)
    ensures WaitsAt(cfg, w, n + 1, x) ==>
      && DelayAt(cfg, w, n + 1, x) <= DelayAt(cfg, w, n, x) - 1
      && forall j :: AheadOf(Reach(cfg, w, n + 1).calls, x, j) ==> AheadOf(Reach(cfg, w, n).calls, x, j)
  {
    hide Reach, Inv, Shape, Step, Fair, Delay, AheadOf;
    ReachUnroll(cfg, w, n + 1);
    ReachInv(cfg, w, n);
    ReachFair(cfg, w, n);
    var s := Reach(cfg, w, n);
    PlacedEngine(cfg, w, s, x);
    ShapeSizes(cfg, w, s);
    StepNearer(cfg, w, s, x);
  }

  lemma DelayNonNegative(cfg: Config, w: Workload, n: nat, x: nat)
    requires ValidWorkload(w) && ValidConfig(cfg, w) && WaitsAt(cfg, w, n, x)
    ensures DelayAt(cfg, w, n, x) >= 0
  {
    hide Reach, Inv, Shape, Room, Guarded;
    ReachInv(cfg, w, n);
    var s := Reach(cfg, w, n);
    InvShape(cfg, w, s);
    var e := s.calls[x].engine;
    DebtsNonNegative(cfg, w, s, e);
    if e < |s.windows| {
      forall i | 0 <= i < |s.calls| ensures Charges(cfg, s.calls, s.windows[e], x)[i] >= 0 {
        ChargeNonNegative(cfg, w, s, i, s.windows[e]);
      }
      SumNonNegative(Charges(cfg, s.calls, s.windows[e], x));
    }
  }

  /** No starvation: a call that waits in the first queue starts within `DelayAt + 1` steps, unless the time limit ends
      the run. */
  lemma {:induction false} StartsInTime(cfg: Config, w: Workload, n: nat, x: nat) returns (m: nat)
    requires ValidWorkload(w) && ValidConfig(cfg, w) && WaitsAt(cfg, w, n, x)
    ensures m <= DelayAt(cfg, w, n, x) + 1
    ensures Started(Reach(cfg, w, n + m).calls, x) || Reach(cfg, w, n + m).time > cfg.maxTime
    decreases DelayAt(cfg, w, n, x)
  {
    hide Reach, DelayAt, WaitsAt, Started;
    DelayNonNegative(cfg, w, n, x);
    if Reach(cfg, w, n).time > cfg.maxTime {
      m := 0;
    } else {
      WaitingStep(cfg, w, n, x);
      if WaitsAt(cfg, w, n + 1, x) {
        var rest := StartsInTime(cfg, w, n + 1, x);
        m := rest + 1;
        assert n + m == n + 1 + rest;
      } else {
        m := 1;
      }
    }
  }
}
