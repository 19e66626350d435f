/** The simulator as the imperative program it is: deques and lists updated in place, tick by tick. Every method is
 *  proved equal to the corresponding step of the state machine. */
module Simulation {
  import opened Sequences
  import opened Levels
  import opened SimModel
  import opened SimInvariant
  import opened SimTermination
  import opened SimSteps
  import opened SimQueues

  ghost predicate EnginesOk(cfg: Config, calls: seq<Call>, engines: seq<Engine>) {
    |engines| == cfg.engines && forall e :: 0 <= e < |engines| ==> EngineOk(cfg, calls, e, engines[e])
  }

  function PendingSet(calls: seq<Call>): (r: set<nat>)
    ensures forall i: nat :: i in r <==> i < |calls| && calls[i].status == Pending
  {
    set i: nat | i < |calls| && calls[i].status == Pending
  }

  lemma EngineAt(cfg: Config, calls: seq<Call>, engines: seq<Engine>, e: nat)
    requires EnginesOk(cfg, calls, engines) && e < cfg.engines
    ensures |engines| == cfg.engines && EngineOk(cfg, calls, e, engines[e]) && |engines[e].queues| == |cfg.quanta|
    ensures engines[e].running == RunningOn(calls, e) && engines[e].prefetched == PrefetchedOn(calls, e)
  {
  }

  /** Changing one engine, and only calls that live on it before or after. */
  lemma OneEngine(cfg: Config, calls: seq<Call>, calls': seq<Call>, counter: nat, counter': nat, engines: seq<Engine>,
                  e: nat, engine: Engine)
    requires EnginesOk(cfg, calls, engines) && e < cfg.engines && Stamps(calls, counter) && Stamps(calls', counter')
      && |calls'| == |calls|
    requires EngineOk(cfg, calls', e, engine)
    requires forall i :: 0 <= i < |calls| ==>
      calls'[i] == calls[i] || ((!Live(calls[i]) || calls[i].engine == e)
      && (!Live(calls'[i]) || calls'[i].engine == e))
    ensures EnginesOk(cfg, calls', engines[e := engine])
  {
    hide EngineOk, Stamps;
    forall d | 0 <= d < cfg.engines && d != e ensures EngineOk(cfg, calls', d, engines[d]) {
      EngineSame(cfg, calls, calls', counter, counter', d, engines[d]);
    }
  }

  lemma InitEngines(cfg: Config, w: Workload, engines: seq<Engine>)
    requires ValidWorkload(w) && ValidConfig(cfg, w) && |engines| == cfg.engines
    requires forall e :: 0 <= e < |engines| ==> engines[e] == Engine(seq(|cfg.quanta|, q => []), [], [])
    ensures EnginesOk(cfg, Init(cfg, w).calls, engines)
  {
    var calls := Init(cfg, w).calls;
    forall e | 0 <= e < |engines| ensures EngineOk(cfg, calls, e, engines[e]) {
      NobodyListed(calls, e, {Running});
      NobodyListed(calls, e, {Prefetched});
      assert QueuedPlaces(calls, e) == map[];
    }
  }

  // ---- Filling ---------------------------------------------------------------------

  function StartFirst(calls: seq<Call>, ids: seq<nat>, time: int): (r: seq<Call>)
    ensures |r| == |calls|
    ensures forall i :: 0 <= i < |r| ==> r[i] == if i in ids then StartCall(calls[i], time) else calls[i]
  {
    seq(|calls|, i requires 0 <= i < |calls| => if i in ids then StartCall(calls[i], time) else calls[i])
  }

  lemma StartNext(calls: seq<Call>, ids: seq<nat>, k: nat, time: int)
    requires NoDup(ids) && k < |ids| && ids[k] < |calls|
    ensures var was := StartFirst(calls, ids[..k], time);
      StartFirst(calls, ids[..k + 1], time) == was[ids[k] := StartCall(was[ids[k]], time)]
  {
    TakeMore(ids, k);
    assert ids[k] !in ids[..k];
  }

  lemma FillWhole(cfg: Config, calls: seq<Call>, e: nat, k: nat, time: int)
    requires k <= |PrefetchedOn(calls, e)|
    requires k <= Max(0, cfg.batch - |RunningOn(calls, e)|)
    requires cfg.batch - |RunningOn(calls, e)| - k <= 0 || k == |PrefetchedOn(calls, e)|
    ensures k == |FillList(calls, e, cfg.batch)|
      && StartFirst(calls, PrefetchedOn(calls, e)[..k], time) == Fill(calls, e, cfg.batch, time)
  {
    hide Sel;
  }

  // ---- Sending everyone back to the queues -------------------------------------------

  /** Appending the calls of a sorted list, one by one, to the deques of their levels. */
  ghost predicate Dealt(queues: seq<seq<nat>>, p: Places<nat>, done: seq<nat>) {
    && (forall q :: 0 <= q < |queues| ==> LevelOk(queues[q], p, q) && forall i :: i in queues[q] ==> i in done)
    && (forall i :: i in done ==> i in p && p[i].queue < |queues| && i in queues[p[i].queue])
  }

  lemma DealNext(queues: seq<seq<nat>>, p: Places<nat>, line: seq<nat>, k: nat)
    requires k < |line| && (forall i :: i in line ==> i in p) && Sorted(line, p) && p[line[k]].queue < |queues|
    requires Dealt(queues, p, line[..k])
    ensures Dealt(Push(queues, line[k], p[line[k]].queue), p, line[..k + 1])
  {
    TakeMore(line, k);
    var i, q := line[k], p[line[k]].queue;
    var level := queues[q] + [i];
    assert LevelOk(queues[q], p, q);
    forall a, b | 0 <= a < b < |level| ensures p[level[a]].order < p[level[b]].order {
      if b == |level| - 1 {
        assert level[a] in queues[q] && level[a] in line[..k];
        var j :| 0 <= j < k && line[j] == level[a];
        assert Before(p[line[j]], p[line[k]]);
      }
    }
  }

  lemma DealtAll(queues: seq<seq<nat>>, p: Places<nat>, line: seq<nat>)
    requires Dealt(queues, p, line) && forall i :: i in p ==> i in line
    ensures Agrees(queues, p)
  {
  }

  /** The calls of the line queue again; nothing else about them changes. */
  ghost predicate SentBack(calls: seq<Call>, line: seq<nat>, now: seq<Call>) {
    |now| == |calls| && forall i: nat :: i < |calls| ==>
      now[i] == if i in line then calls[i].(status := Queued) else calls[i]
  }

  lemma UnseatNext(calls: seq<Call>, line: seq<nat>, k: nat, now: seq<Call>)
    requires k < |line| && NoDup(line) && line[k] < |calls| == |now|
    requires SentBack(calls, line[..k], now)
    ensures SentBack(calls, line[..k + 1], now[line[k] := now[line[k]].(status := Queued)])
      && now[line[k]].queue == calls[line[k]].queue
  {
    TakeMore(line, k);
    assert line[k] !in line[..k];
  }

  lemma NobodySentBack(calls: seq<Call>)
    ensures forall line: seq<nat> :: line == [] ==> SentBack(calls, line, calls)
  {
  }

  lemma UnseatedAll(calls: seq<Call>, e: nat, line: seq<nat>, now: seq<Call>)
    requires |calls| == |now| && line == Line(calls, e)
    requires SentBack(calls, line, now)
    ensures now == Unseated(calls, e)
  {
    hide Sel;
    forall i | 0 <= i < |calls| ensures now[i] == Unseated(calls, e)[i] {
      assert i in line <==> LiveOn(calls[i], e);
    }
  }

  lemma LineSorted(calls: seq<Call>, counter: nat, e: nat)
    requires Stamps(calls, counter)
    ensures forall i: nat :: i in Line(calls, e) <==> i in PlacesOf(calls, e)
    ensures forall i: nat :: i in PlacesOf(calls, e) <==> i < |calls| && LiveOn(calls[i], e)
    ensures NoDup(Line(calls, e)) && Sorted(Line(calls, e), PlacesOf(calls, e))
  {
    StampsPlaces(calls, counter, e);
    SortSorted(Picks(calls, e, LIVE), PlacesOf(calls, e), counter);
    SortedNoDup(Line(calls, e), PlacesOf(calls, e));
  }

  // ---- Seating -----------------------------------------------------------------------

  /** The records after the first `k` calls of the line were seated. */
  function Seated(cfg: Config, calls: seq<Call>, line: seq<nat>, k: nat, time: int): (r: seq<Call>)
    requires k <= |line|
    ensures |r| == |calls|
    ensures var b := if cfg.batch <= k then cfg.batch else k;
      forall i :: 0 <= i < |r| ==>
        r[i] == if i in line[..b] then StartCall(calls[i], time)
          else if i in line[b..k] then calls[i].(status := Prefetched) else calls[i]
  {
    var b := if cfg.batch <= k then cfg.batch else k;
    seq(|calls|, i requires 0 <= i < |calls| =>
      if i in line[..b] then StartCall(calls[i], time) else if i in line[b..k] then calls[i].(status := Prefetched)
        else calls[i])
  }

  lemma SeatNext(cfg: Config, calls: seq<Call>, line: seq<nat>, k: nat, time: int)
    requires k < |line| && NoDup(line) && line[k] < |calls|
    ensures var was := Seated(cfg, calls, line, k, time);
      Seated(cfg, calls, line, k + 1, time) ==
        was[line[k] := if k < cfg.batch then StartCall(was[line[k]], time) else was[line[k]].(status := Prefetched)]
  {
    hide StartCall;
    var i, b, b' := line[k], if cfg.batch <= k then cfg.batch else k, if cfg.batch <= k + 1 then cfg.batch else k + 1;
    TakeMore(line, k);
    assert i !in line[..k];
    SeatedMembers(line, b, k);
    if k < cfg.batch {
      assert line[k..k] == [] && line[k + 1..k + 1] == [];
    } else {
      assert line[b'..k + 1] == line[b..k] + [i];
    }
  }

  lemma SeatedMembers(line: seq<nat>, b: nat, k: nat)
    requires b <= k <= |line|
    ensures forall i :: i in line[..k] <==> i in line[..b] || i in line[b..k]
  {
    assert line[..k] == line[..b] + line[b..k];
  }

  /** Seating the line and charging the victims is the selection of the state machine. */
  lemma SeatsAreSelection(cfg: Config, calls: seq<Call>, counter: nat, e: nat, time: int, out: seq<nat>, now: seq<Call>)
    requires Stamps(calls, counter)
    requires |out| == |Victims(cfg, calls, e)| && forall i: nat :: i in out <==> i in Victims(cfg, calls, e)
    requires var line := Line(calls, e);
      |now| == |calls| &&
      forall i: nat :: i < |calls| ==>
        now[i] == Charged(cfg, Seated(cfg, Unseated(calls, e), line, HoldCount(cfg, line), time)[i], |out|, i in out)
    ensures now == Selected(cfg, calls, e, time)
  {
    hide Sel, Selected, Victims, Stamps, Charged, SelectedCall, SeatOf, RunCount, HoldCount, Unseated, Seated;
    var line, victims := Line(calls, e), Victims(cfg, calls, e);
    VictimsAreLive(cfg, calls, e);
    SelFacts(calls, counter, e, LIVE);
    LineParts(line, RunCount(cfg, line), HoldCount(cfg, line));
    assert forall i: nat :: i in victims ==> i in line[HoldCount(cfg, line)..];
    forall i: nat | i < |calls| ensures now[i] == Selected(cfg, calls, e, time)[i] {
      assert i in line <==> LiveOn(calls[i], e);
      SeatIsSelection(cfg, line, victims, calls[i], i, time);
      SeatedOne(cfg, calls, e, line, i, time);
    }
  }

  /** One call, seated and then charged. */
  lemma SeatIsSelection(cfg: Config, line: seq<nat>, victims: seq<nat>, c: Call, i: nat, time: int)
    requires i in victims ==> i in line[HoldCount(cfg, line)..]
    requires i in line[HoldCount(cfg, line)..] ==>
      i in line && i !in line[..RunCount(cfg, line)] && i !in line[RunCount(cfg, line)..HoldCount(cfg, line)]
    requires i in line[..RunCount(cfg, line)] || i in line[RunCount(cfg, line)..HoldCount(cfg, line)] ==> i in line
    ensures SelectedCall(cfg, line, victims, c, i, time)
      == Charged(cfg, SeatOf(cfg, line, c, i, time), |victims|, i in victims)
  {
  }

  /** What seating makes of a call of the line, or of one outside it. */
  function SeatOf(cfg: Config, line: seq<nat>, c: Call, i: nat, time: int): Call {
    var run, hold := RunCount(cfg, line), HoldCount(cfg, line);
    var unseated := if i in line then c.(status := Queued) else c;
    if i in line[..run] then StartCall(unseated, time)
    else if i in line[run..hold] then unseated.(status := Prefetched) else unseated
  }

  lemma SeatedOne(cfg: Config, calls: seq<Call>, e: nat, line: seq<nat>, i: nat, time: int)
    requires i < |calls| && (i in line <==> LiveOn(calls[i], e))
    ensures Seated(cfg, Unseated(calls, e), line, HoldCount(cfg, line), time)[i] == SeatOf(cfg, line, calls[i], i, time)
  {
    hide StartCall, LiveOn;
  }

  lemma LineParts(line: seq<nat>, run: nat, hold: nat)
    requires NoDup(line) && run <= hold <= |line|
    ensures forall i :: i in line[hold..] ==> i in line && i !in line[..run] && i !in line[run..hold]
    ensures forall i :: i in line[..run] || i in line[run..hold] ==> i in line
  {
    SplitMembers(line, hold);
    assert line[..hold] == line[..run] + line[run..hold];
  }

  function Charged(cfg: Config, c: Call, victims: nat, pays: bool): Call {
    if pays then c.(swap := c.swap + cfg.penalty(victims), swapLeft := c.swapLeft + cfg.penalty(victims)) else c
  }

  datatype Outcome = AllDone | LimitExceeded

  class Simulator {
    const cfg: Config
    const w: Workload
    var time: int
    var calls: seq<Call>
    var engines: seq<Engine>
    var windows: seq<nat>
    var entries: seq<Entry>
    var counter: nat
    var gantt: seq<Row>
    var pending: set<nat>

    function Model(): Sim
      reads this
    {
      Sim(time, calls, windows, entries, counter, gantt)
    }

    ghost predicate Valid()
      reads this
    {
      Shape(cfg, w, Model()) && EnginesOk(cfg, calls, engines) && pending == PendingSet(calls)
    }

    constructor (cfg: Config, w: Workload)
      requires ValidWorkload(w) && ValidConfig(cfg, w)
      ensures Valid() && this.cfg == cfg && this.w == w && Model() == Init(cfg, w)
    {
      this.cfg, this.w := cfg, w;
      var s := Init(cfg, w);
      time, calls, windows, entries, counter, gantt := s.time, s.calls, s.windows, s.entries, 0, [];
      var idle: seq<Engine> := seq(cfg.engines, e => Engine(seq(|cfg.quanta|, q => []), [], []));
      engines := idle;
      pending := PendingSet(s.calls);
      InitEngines(cfg, w, idle);
    }

    /** `enqueue`, after the load balancer and the execution model have spoken. */
    method Enqueue(i: nat)
      requires Valid() && Inv(cfg, w, Model()) && time <= cfg.maxTime && i < |calls| && calls[i].status == Pending
      requires Earliest(cfg, w, calls, i) <= time
      modifies this`calls, this`engines, this`counter, this`pending
      ensures Valid() && Model() == Release(cfg, w, old(Model()), i)
    {
      hide Shape, Inv, Earliest, CriticalPathService, PriorityOf, AssignQueue, EnginesOk, EngineOk, Stamps, PendingSet,
        ValidWorkload, ValidConfig;
      ghost var s := Model();
      ShapeParts(cfg, w, s);
      var spec, prep := w.specs[i], cfg.prep[i];
      var c := calls[i].(engine := prep.engine, model := prep.model, remaining := prep.model,
                         sched := prep.sched, schedLeft := prep.sched,
                         cps := CriticalPathService(calls, spec.parents));
      var priority := PriorityOf(cfg.policy, c, entries[spec.pid]);
      var queue := AssignQueue(cfg, priority);
      counter := counter + 1;
      c := c.(status := Queued, ready := time, priority := priority, queue := queue, quantum := cfg.quanta[queue],
        order := counter);
      assert c == Admitted(cfg, w, s, i);
      ReleasedEngines(cfg, w, s, engines, i);
      calls := calls[i := c];
      engines := engines[prep.engine := engines[prep.engine].(queues := Push(engines[prep.engine].queues, i, queue))];
      pending := pending - {i};
    }

    /** `_release_ready_calls`: the pending calls in the order (program arrival, program id, call id). */
    method ReleaseReadyCalls()
      requires Valid() && Inv(cfg, w, Model()) && time <= cfg.maxTime
      modifies this`calls, this`engines, this`counter, this`pending
      ensures Valid() && Model() == ReleaseUpTo(cfg, w, old(Model()), |old(calls)|)
    {
      hide Shape, Inv, Earliest, Release, ReleaseUpTo, EnginesOk, PendingSet, ValidWorkload, ValidConfig;
      ghost var s := Model();
      ReleaseUnroll(cfg, w, s, 0);
      for k := 0 to |calls|
        invariant Valid() && Shape(cfg, w, s) && |calls| == |s.calls| && time == s.time
          && Model() == ReleaseUpTo(cfg, w, s, k)
      {
        ReleaseUnroll(cfg, w, s, k + 1);
        ReleaseUpToInv(cfg, w, s, k);
        ShapeParts(cfg, w, Model());
        ReleaseSkips(cfg, w, Model(), k);
        if k in pending && Earliest(cfg, w, calls, k) <= time {
          Enqueue(k);
        }
        ShapeParts(cfg, w, Model());
      }
    }

    /** `fill_from_prefetch`. */
    method FillFromPrefetch(e: nat, at: int)
      requires EnginesOk(cfg, calls, engines) && e < cfg.engines && Stamps(calls, counter)
      requires InOrder(calls, RunningOn(calls, e) + PrefetchedOn(calls, e))
      modifies this`calls, this`engines
      ensures calls == Fill(old(calls), e, cfg.batch, at) && EnginesOk(cfg, calls, engines) && Stamps(calls, counter)
    {
      hide Sel, Stamps, EnginesOk, EngineOk, InOrder, Fill, FillList;
      EngineAt(cfg, calls, engines, e);
      FilledEngines(cfg, calls, counter, engines, e, at);
      var filled, engine := Refill(cfg, calls, e, engines[e], at, counter);
      calls, engines := filled, engines[e := engine];
    }

    /** One engine's share of `_schedule`. */
    method ScheduleOn(e: nat)
      requires Valid() && Inv(cfg, w, Model()) && e < cfg.engines
      modifies this`calls, this`engines, this`counter, this`windows
      ensures Valid() && Model() == ScheduleEngine(cfg, w, old(Model()), e)
    {
      hide Sel, Stamps, Inv, Shape, EnginesOk, EngineOk, Fill, Refreshed, RefreshedKeys, Selected, MidSeat, Slots,
        AllSlots, AllPlaces, InOrder, PendingSet, RefreshReady, Unseated, PlacesOf, HoldCount;
      ghost var s, engines0 := Model(), engines;
      ShapeParts(cfg, w, s);
      InvStart(cfg, w, s);
      EngineAt(cfg, calls, engines, e);
      SlotsAt(cfg, calls, e);
      IdleFill(cfg, s, e);
      FillFromPrefetch(e, time);
      EngineAt(cfg, calls, engines, e);
      if windows[e] > 0 && engines[e].running != [] {
        FrozenStep(cfg, w, s, e);
        return;
      }
      DecideReady(cfg, w, s, e);
      var chosen, engine, next;
      ghost var seated;
      chosen, engine, next, seated := Decide(cfg, w, calls, entries, e, engines[e], time, counter);
      RescheduledEngines(cfg, w, s, engines, e, seated, engine);
      calls, counter := chosen, next;
      engines := engines[e := engine];
      windows := windows[e := cfg.interval];
    }

    /** `_schedule`. */
    method Schedule()
      requires Valid() && Inv(cfg, w, Model())
      modifies this`calls, this`engines, this`counter, this`windows
      ensures Valid() && Model() == ScheduleUpTo(cfg, w, old(Model()), cfg.engines)
    {
      hide Shape, Inv, ScheduleEngine, ScheduleUpTo, EnginesOk, PendingSet;
      ghost var s := Model();
      ScheduleUnroll(cfg, w, s, 0);
      for k := 0 to cfg.engines
        invariant Valid() && Shape(cfg, w, s) && Model() == ScheduleUpTo(cfg, w, s, k)
      {
        ScheduleUnroll(cfg, w, s, k + 1);
        ScheduleUpToInv(cfg, w, s, k);
        ScheduleOn(k);
      }
    }

    /** One engine's share of `_execute_one_tick`. */
    method TickOn(e: nat)
      requires Valid() && Midway(cfg, w, Model(), e) && e < cfg.engines
      modifies this`calls, this`engines, this`windows, this`entries, this`gantt
      ensures Valid() && Model() == TickEngine(cfg, w, old(Model()), e)
    {
      hide Sel, Stamps, Midway, Shape, EnginesOk, EngineOk, Fill, Ticked, Settle, Rows, MidWork, MidComplete, Slots,
        InOrder, PendingSet, AnyExecutes, Completed, Awaited, Filter, Flatten;
      ghost var s, engines0 := Model(), engines;
      ShapeParts(cfg, w, s);
      TickReady(cfg, w, s, engines, e);
      var engine := engines[e];
      var worked, rows, finished, executed := Work(calls, e, time, engine.running);
      FinishedOnes(calls, e, time, engine.running, worked, rows, finished, executed);
      gantt := gantt + rows;
      var completed, totals, running := Complete(cfg, w, worked, entries, engine.running, time, finished,
        Ticked(calls, e, time));
      CompletedLength(cfg, w, worked, entries, engine.running, time, finished, completed, totals, running,
        Ticked(calls, e, time));
      var waited := Await(completed, Flatten(engine.queues) + engine.prefetched);
      TickLoops(cfg, w, calls, counter, entries, e, engine, time, worked, rows, finished, executed, completed, totals,
        running, waited);
      calls, entries, engines := waited, totals, engines[e := engine.(running := running)];
      if executed {
        windows := windows[e := if windows[e] > 0 then windows[e] - 1 else 0];
      }
      TickedEngines(cfg, w, s, engines0, e, finished);
      FillFromPrefetch(e, time + 1);
      TickedPending(cfg, w, s, e);
    }

    /** `_execute_one_tick`. */
    method ExecuteOneTick()
      requires Valid() && Inv(cfg, w, Model())
      modifies this`calls, this`engines, this`windows, this`entries, this`gantt
      ensures Valid() && Model() == TickUpTo(cfg, w, old(Model()), cfg.engines)
    {
      hide Shape, Inv, Midway, TickEngine, TickUpTo, EnginesOk, PendingSet;
      ghost var s := Model();
      TickUnroll(cfg, w, s, 0);
      for k := 0 to cfg.engines
        invariant Valid() && Shape(cfg, w, s) && Model() == TickUpTo(cfg, w, s, k)
      {
        TickUnroll(cfg, w, s, k + 1);
        TickUpToInv(cfg, w, s, k);
        TickOn(k);
      }
    }

    /** Is anything running, prefetched or queued? */
    method AnyEngineBusy() returns (busy: bool)
      requires Valid() && Stamps(calls, counter) && AllPlaces(cfg, calls)
      ensures busy <==> Busy(Model())
    {
      hide Shape, EnginesOk, EngineOk, Stamps, AllPlaces, Sel, Flatten, PendingSet;
      ShapeParts(cfg, w, Model());
      for e := 0 to cfg.engines
        invariant forall i, d: nat :: 0 <= i < |calls| && d < e ==> !LiveOn(calls[i], d)
      {
        EngineAt(cfg, calls, engines, e);
        EmptyEngine(cfg, calls, counter, e, engines[e]);
        if engines[e].running != [] || engines[e].prefetched != [] || Flatten(engines[e].queues) != [] {
          return true;
        }
      }
      NobodyLive(cfg, calls);
      return false;
    }

    /** `_step_once`: release, schedule, execute, and let the clock skip to the next release if nothing is live. */
    method StepOnce() returns (ok: bool)
      requires Valid() && Inv(cfg, w, Model())
      modifies this
      ensures ok <==> old(time) <= cfg.maxTime
      ensures Valid() && Inv(cfg, w, Model())
      ensures Model() == if ok then Step(cfg, w, old(Model())) else old(Model())
    {
      hide Shape, Inv, Midway, ReleaseUpTo, ScheduleUpTo, TickUpTo, EnginesOk, PendingSet, Step, IdleWithFutureWork,
        NextRelease, Busy, Stamps, AllPlaces, Earliest,
        NextTime, PendingAt;
      if time > cfg.maxTime {
        return false;
      }
      ghost var s := Model();
      ReleaseReadyCalls();
      ReleaseUpToInv(cfg, w, s, |s.calls|);
      ghost var a := Model();
      Schedule();
      ScheduleUpToInv(cfg, w, a, cfg.engines);
      ghost var b := Model();
      ExecuteOneTick();
      TickUpToInv(cfg, w, b, cfg.engines);
      ghost var c := Model();
      StepResult(cfg, w, s);
      StepInv(cfg, w, s);
      MidwayPlaces(cfg, w, c);
      var busy := AnyEngineBusy();
      ShapeParts(cfg, w, c);
      NextTimeIs(cfg, w, c, s.time + 1);
      ReleaseTimeless(cfg, w, c, c.time + 1, |c.calls|);
      time := time + 1;
      if !busy && exists i: nat :: i < |calls| && PendingAt(Model(), i) && Earliest(cfg, w, calls, i) > time {
        var next := NextRelease(cfg, w, Model(), |calls|);
        time := if next.Some? then Max(time, next.value) else time;
      }
      return true;
    }

    /** `run`: steps until every call has finished, or until the clock passes the limit. */
    method Run() returns (outcome: Outcome, ghost steps: nat)
      requires Valid() && ValidWorkload(w) && ValidConfig(cfg, w) && Model() == Init(cfg, w)
      modifies this
      ensures Valid() && Model() == Reach(cfg, w, steps)
      ensures outcome == AllDone <==> AllFinished(Model())
      ensures outcome == LimitExceeded ==> time > cfg.maxTime
      ensures RunBound(cfg, w) <= cfg.maxTime ==> outcome == AllDone && time <= RunBound(cfg, w)
    {
      hide Shape, Inv, Midway, EnginesOk, PendingSet, Step, Init, AllFinished, ValidWorkload, ValidConfig, Reach,
        RunBound;
      steps := 0;
      ReachUnroll(cfg, w, 0);
      ReachInv(cfg, w, 0);
      while !AllFinished(Model())
        invariant Valid() && Inv(cfg, w, Model()) && Model() == Reach(cfg, w, steps)
        decreases cfg.maxTime + 1 - time
      {
        ghost var s := Model();
        var ok := StepOnce();
        if !ok {
          WithinLimit(cfg, w, steps);
          return LimitExceeded, steps;
        }
        StepInv(cfg, w, s);
        ReachUnroll(cfg, w, steps + 1);
        steps := steps + 1;
      }
      WithinLimit(cfg, w, steps);
      return AllDone, steps;
    }
  }

  lemma NothingDealt(queues: seq<seq<nat>>, p: Places<nat>)
    requires forall q :: 0 <= q < |queues| ==> queues[q] == []
    ensures Dealt(queues, p, [])
  {
  }

  lemma LevelFits(cfg: Config, calls: seq<Call>, e: nat, i: nat)
    requires AllPlaces(cfg, calls) && i in PlacesOf(calls, e)
    ensures i < |calls| && PlacesOf(calls, e)[i].queue == calls[i].queue < |cfg.quanta|
  {
    assert Placed(cfg, calls[i]);
  }

  ghost predicate RefreshReady(cfg: Config, w: Workload, calls: seq<Call>, entries: seq<Entry>, e: nat) {
    && |cfg.quanta| > 0 && |calls| == |w.specs| && e < cfg.engines
    && (forall i :: 0 <= i < |w.specs| ==> w.specs[i].pid < |entries|)
  }

  /** When everybody on the engine is queued, its deques read level by level are the line. */
  lemma QueuedIsLine(cfg: Config, calls: seq<Call>, counter: nat, e: nat, queues: seq<seq<nat>>)
    requires Agrees(queues, PlacesOf(calls, e)) && Stamps(calls, counter)
    ensures Flatten(queues) == Line(calls, e) && Flatten(queues) + [] == Flatten(queues)
    ensures (forall i :: i in Flatten(queues) ==> i in PlacesOf(calls, e))
      && Sort(Flatten(queues), PlacesOf(calls, e)) == Line(calls, e)
  {
    hide Sel, Stamps;
    var p := PlacesOf(calls, e);
    StampsPlaces(calls, counter, e);
    FlattenSorted(queues, p);
    FlattenMembers(queues);
    SortedNoDup(Flatten(queues), p);
    SortedLine(calls, counter, e, Flatten(queues));
    SortSorted(Flatten(queues), p, counter);
    SortedUnique(Sort(Flatten(queues), p), Flatten(queues), p);
  }

  /** `demote` and the promotion, for one call. */
  method RequeueOne(cfg: Config, i: nat, c0: Call, entry: Entry, queues0: seq<seq<nat>>, counter0: nat)
      returns (c: Call, queues: seq<seq<nat>>, counter: nat)
    requires |queues0| == |cfg.quanta| > 0 && c0.queue < |queues0|
    ensures |queues| == |queues0| && queues == HopDeques(queues0, i, c0.queue, HopsOf(cfg, c0, entry))
    ensures counter == counter0 + |HopsOf(cfg, c0, entry)|
    ensures var hops := HopsOf(cfg, c0, entry);
      c == Requeued(cfg, c0, entry, if hops == [] then Place(c0.queue, c0.order) else Place(hops[|hops| - 1], counter))
  {
    hide HopDeques, Without, HopsOf, Requeued;
    HopsUnrolled(cfg, c0, entry);
    c, queues, counter := c0, queues0, counter0;
    if ShouldPreempt(cfg, c) {
      queues := Take(queues, i, c.queue);
      c := c.(queue := DemotedQueue(cfg, c.queue));
      c := c.(quantum := cfg.quanta[c.queue]);
      counter := counter + 1;
      c := c.(order := counter);
      queues := Push(queues, i, c.queue);
    }
    if ShouldPromote(cfg, c, c.queue, entry) {
      queues := Take(queues, i, c.queue);
      c := c.(queue := 0, quantum := cfg.quanta[0], waitWindow := 0, runWindow := 0);
      counter := counter + 1;
      c := c.(order := counter);
      queues := Push(queues, i, 0);
    }
    HopDequesUnrolled(queues0, i, c0.queue, DemotedQueue(cfg, c0.queue), 0);
    HopDequesUnrolled(queues0, i, c0.queue, 0, 0);
    var hops := HopsOf(cfg, c0, entry);
    RequeuedUnrolled(cfg, c0, entry, if hops == [] then Place(c0.queue, c0.order)
      else Place(hops[|hops| - 1], counter));
  }

  lemma RefreshBegins(cfg: Config, w: Workload, calls: seq<Call>, entries: seq<Entry>, e: nat, queues: seq<seq<nat>>,
                      line: seq<nat>, counter: nat)
    requires RefreshReady(cfg, w, calls, entries, e)
    ensures MidRefresh(cfg, w, calls, entries, e, queues, line, 0, counter, calls, queues, counter)
  {
    hide HopsOf;
  }

  ghost predicate Visiting(cfg: Config, w: Workload, calls: seq<Call>, entries: seq<Entry>, e: nat,
                           queues: seq<seq<nat>>, line: seq<nat>, k: nat) {
    && RefreshReady(cfg, w, calls, entries, e) && |queues| == |cfg.quanta| && k < |line|
    && NoDup(line) && (forall i: nat :: i in line <==> i < |calls| && LiveOn(calls[i], e))
    && AllPlaces(cfg, calls)
  }

  /** The refresh after `k` turns, from the records `calls0` and the deques `queues0`. */
  ghost predicate MidRefresh(cfg: Config, w: Workload, calls0: seq<Call>, entries: seq<Entry>, e: nat,
                             queues0: seq<seq<nat>>, line: seq<nat>, k: nat, counter0: nat, calls: seq<Call>,
                             queues: seq<seq<nat>>, counter: nat)
    requires RefreshReady(cfg, w, calls0, entries, e) && k <= |line|
  {
    var p, hops := PlacesOf(calls0, e), EngineHops(cfg, w, calls0, entries, e);
    && |calls| == |calls0| && |queues| == |queues0|
    && (forall i :: i in line[..k] ==> i in p && i in hops && p[i].queue < |queues0|)
    && HopsFit(hops, line[..k], |queues0|)
    && counter == RefreshKeys(p, line[..k], hops, counter0).1
    && queues == RefreshDeques(queues0, p, line[..k], hops)
    && RefreshedSoFar(cfg, w, calls0, entries, e, line[..k], RefreshKeys(p, line[..k], hops, counter0).0, calls)
  }

  lemma VisitFits(cfg: Config, w: Workload, calls: seq<Call>, entries: seq<Entry>, e: nat, queues: seq<seq<nat>>,
                  line: seq<nat>, k: nat)
    requires Visiting(cfg, w, calls, entries, e, queues, line, k)
    ensures var p, hops := PlacesOf(calls, e), EngineHops(cfg, w, calls, entries, e);
      && (forall i :: i in line ==> i in p && i in hops && p[i].queue < |queues|)
      && HopsFit(hops, line, |queues|) && line[k] in line && line[k] < |calls| && line[k] !in line[..k]
      && p[line[k]] == Place(calls[line[k]].queue, calls[line[k]].order)
      && hops[line[k]] == HopsOf(cfg, calls[line[k]], entries[w.specs[line[k]].pid])
      && (forall i :: i in line[..k] ==> i in line) && (forall i :: i in line[..k + 1] ==> i in line)
  {
    hide HopsOf;
    forall i | i in line ensures PlacesOf(calls, e)[i].queue < |queues| {
      assert Placed(cfg, calls[i]);
    }
  }

  /** Before its turn a call is as the refresh found it. */
  lemma RefreshTurn(cfg: Config, w: Workload, calls0: seq<Call>, entries: seq<Entry>, e: nat, queues0: seq<seq<nat>>,
                    line: seq<nat>, k: nat, counter0: nat, calls: seq<Call>, queues: seq<seq<nat>>, counter: nat)
    requires Visiting(cfg, w, calls0, entries, e, queues0, line, k)
    requires MidRefresh(cfg, w, calls0, entries, e, queues0, line, k, counter0, calls, queues, counter)
    ensures line[k] < |calls0| == |calls| && calls[line[k]] == calls0[line[k]]
      && calls0[line[k]].queue < |queues| == |cfg.quanta|
    ensures w.specs[line[k]].pid < |entries|
  {
    hide HopsOf, Requeued, RefreshKeys, RefreshDeques, PlacesOf;
    VisitFits(cfg, w, calls0, entries, e, queues0, line, k);
  }

  lemma RefreshKeysNext(p: Places<nat>, line: seq<nat>, k: nat, hops: Hops<nat>, counter: nat)
    requires k < |line| && NoDup(line) && forall i :: i in line ==> i in p && i in hops
    ensures line[k] in line && (forall i :: i in line[..k] ==> i in line)
      && (forall i :: i in line[..k + 1] ==> i in line)
    ensures var was, own := RefreshKeys(p, line[..k], hops, counter), hops[line[k]];
      var now := RefreshKeys(p, line[..k + 1], hops, counter);
      && now.1 == was.1 + |own|
      && now.0 == (if own == [] then was.0 else was.0[line[k] := Place(own[|own| - 1], now.1)])
      && was.0[line[k]] == p[line[k]]
  {
    hide HopKeys;
    TakeMore(line, k);
    assert line[..k + 1][..k] == line[..k] && line[k] !in line[..k];
    RefreshKeysResult(p, line[..k], hops, counter);
    var was := RefreshKeys(p, line[..k], hops, counter);
    HopKeysResult(was.0, line[k], hops[line[k]], was.1);
  }

  lemma RefreshDequesNext(queues: seq<seq<nat>>, p: Places<nat>, line: seq<nat>, k: nat, hops: Hops<nat>)
    requires k < |line| && HopsFit(hops, line, |queues|) && forall i :: i in line ==> i in p && p[i].queue < |queues|
    ensures line[k] in line && (forall i :: i in line[..k] ==> i in line)
      && (forall i :: i in line[..k + 1] ==> i in line)
    ensures RefreshDeques(queues, p, line[..k + 1], hops)
      == HopDeques(RefreshDeques(queues, p, line[..k], hops), line[k], p[line[k]].queue, hops[line[k]])
  {
    hide HopDeques;
    TakeMore(line, k);
    assert line[..k + 1][..k] == line[..k];
  }

  lemma SoFarNext(cfg: Config, w: Workload, calls: seq<Call>, entries: seq<Entry>, e: nat, line: seq<nat>, k: nat,
                  was: Places<nat>, keys: Places<nat>, now: seq<Call>, c: Call)
    requires RefreshReady(cfg, w, calls, entries, e) && k < |line| && line[k] < |calls| == |now| && NoDup(line)
    requires RefreshedSoFar(cfg, w, calls, entries, e, line[..k], was, now)
    requires forall i: nat :: i in line[..k] && i in keys ==> i in was && keys[i] == was[i]
    requires line[k] in keys && c == Requeued(cfg, calls[line[k]], entries[w.specs[line[k]].pid], keys[line[k]])
    ensures RefreshedSoFar(cfg, w, calls, entries, e, line[..k + 1], keys, now[line[k] := c])
  {
    hide Requeued;
    TakeMore(line, k);
    assert line[k] !in line[..k];
  }

  lemma RefreshTurned(cfg: Config, w: Workload, calls0: seq<Call>, entries: seq<Entry>, e: nat, queues0: seq<seq<nat>>,
                      line: seq<nat>, k: nat, counter0: nat, calls: seq<Call>, queues: seq<seq<nat>>, counter: nat,
                      c: Call, queues': seq<seq<nat>>, counter': nat)
    requires Visiting(cfg, w, calls0, entries, e, queues0, line, k)
    requires MidRefresh(cfg, w, calls0, entries, e, queues0, line, k, counter0, calls, queues, counter)
    requires line[k] < |calls0| && calls0[line[k]].queue < |queues| == |cfg.quanta|
    requires var own := HopsOf(cfg, calls0[line[k]], entries[w.specs[line[k]].pid]);
      && |queues'| == |queues| && queues' == HopDeques(queues, line[k], calls0[line[k]].queue, own)
      && counter' == counter + |own|
      && c == Requeued(cfg, calls0[line[k]], entries[w.specs[line[k]].pid],
                       if own == [] then Place(calls0[line[k]].queue, calls0[line[k]].order)
                         else Place(own[|own| - 1], counter'))
    ensures line[k] < |calls|
    ensures MidRefresh(cfg, w, calls0, entries, e, queues0, line, k + 1, counter0, calls[line[k] := c], queues',
      counter')
  {
    hide HopsOf, Requeued, HopDeques, HopKeys, PlacesOf, AllPlaces, RefreshKeys, RefreshDeques, RefreshedSoFar,
      EngineHops;
    VisitFits(cfg, w, calls0, entries, e, queues0, line, k);
    var p, hops := PlacesOf(calls0, e), EngineHops(cfg, w, calls0, entries, e);
    RefreshKeysNext(p, line, k, hops, counter0);
    RefreshDequesNext(queues0, p, line, k, hops);
    SoFarNext(cfg, w, calls0, entries, e, line, k, RefreshKeys(p, line[..k], hops, counter0).0,
      RefreshKeys(p, line[..k + 1], hops, counter0).0, calls, c);
  }

  lemma RefreshEnds(cfg: Config, w: Workload, calls: seq<Call>, entries: seq<Entry>, e: nat, queues: seq<seq<nat>>,
                    line: seq<nat>, counter: nat, now: seq<Call>)
    requires RefreshReady(cfg, w, calls, entries, e) && |queues| == |cfg.quanta| && line == Line(calls, e)
      && NoDup(line)
    requires forall i: nat :: i in line <==> i < |calls| && LiveOn(calls[i], e)
    requires AllPlaces(cfg, calls) && Stamps(calls, counter) && Agrees(queues, PlacesOf(calls, e))
    requires |now| == |calls|
    requires RefreshedSoFar(cfg, w, calls, entries, e, line, RefreshedKeys(cfg, w, calls, entries, e, counter).0, now)
    ensures now == Refreshed(cfg, w, calls, entries, e, counter)
    ensures HopsFit(EngineHops(cfg, w, calls, entries, e), line, |queues|)
    ensures forall i :: i in line ==> PlacesOf(calls, e)[i].queue < |queues|
    ensures Agrees(RefreshDeques(queues, PlacesOf(calls, e), line, EngineHops(cfg, w, calls, entries, e)),
      PlacesOf(now, e))
  {
    hide Sel, Stamps, HopsOf, Requeued, RefreshKeys, RefreshDeques, Agrees, Stamped, Refreshed, EngineHops;
    var p, hops := PlacesOf(calls, e), EngineHops(cfg, w, calls, entries, e);
    forall i | i in line ensures i in p && i in hops && p[i].queue < |queues| {
      assert Placed(cfg, calls[i]);
    }
    StampsPlaces(calls, counter, e);
    RefreshAgrees(queues, p, line, hops, counter);
    AllRefreshed(cfg, w, calls, entries, e, counter, line, now);
    RefreshedPlaces(cfg, w, calls, entries, e, counter);
  }

  lemma AllRefreshed(cfg: Config, w: Workload, calls: seq<Call>, entries: seq<Entry>, e: nat, counter: nat,
                     line: seq<nat>, now: seq<Call>)
    requires RefreshReady(cfg, w, calls, entries, e) && |now| == |calls|
    requires forall i: nat :: i in line <==> i < |calls| && LiveOn(calls[i], e)
    requires RefreshedSoFar(cfg, w, calls, entries, e, line, RefreshedKeys(cfg, w, calls, entries, e, counter).0, now)
    ensures now == Refreshed(cfg, w, calls, entries, e, counter)
  {
    hide Sel, RefreshedKeys, Requeued, Refreshed;
    forall i: nat | i < |calls| ensures now[i] == Refreshed(cfg, w, calls, entries, e, counter)[i] {
      assert i in line <==> LiveOn(calls[i], e);
    }
  }

  lemma RefreshedPlaces(cfg: Config, w: Workload, calls: seq<Call>, entries: seq<Entry>, e: nat, counter: nat)
    requires RefreshReady(cfg, w, calls, entries, e)
    ensures PlacesOf(Refreshed(cfg, w, calls, entries, e, counter), e)
      == RefreshedKeys(cfg, w, calls, entries, e, counter).0
  {
    hide Sel, HopsOf, Promoted, Refreshed, RefreshedKeys;
    var keys, r := RefreshedKeys(cfg, w, calls, entries, e, counter).0, Refreshed(cfg, w, calls, entries, e, counter);
    forall i: nat | i < |calls| ensures LiveOn(r[i], e) == LiveOn(calls[i], e) {
      RequeuedLive(cfg, w, calls, entries, e, counter, i);
    }
    assert forall i: nat :: i in PlacesOf(r, e) <==> i in keys;
  }

  /** Take every call off the engine's lists and deal them back to the deques of their levels, in the order of the
      line. */
  method SendBack(cfg: Config, calls0: seq<Call>, e: nat, engine: Engine, ghost counter: nat)
      returns (calls: seq<Call>, queues: seq<seq<nat>>)
    requires EngineOk(cfg, calls0, e, engine) && Stamps(calls0, counter) && AllPlaces(cfg, calls0)
    ensures calls == Unseated(calls0, e) && |queues| == |cfg.quanta| && Agrees(queues, PlacesOf(calls, e))
  {
    hide Sel, Stamps, EngineOk, Agrees, Dealt, AllPlaces, SentBack, Flatten;
    var p := PlacesOf(calls0, e);
    CandidatesLine(cfg, calls0, counter, e, engine);
    LineSorted(calls0, counter, e);
    var line: seq<nat> := Sort<nat>(engine.running + (Flatten(engine.queues) + engine.prefetched), p);
    assert line == Line(calls0, e);
    forall i: nat | i in line ensures i < |calls0| && i in p && p[i].queue == calls0[i].queue < |cfg.quanta| {
      LevelFits(cfg, calls0, e, i);
    }
    calls, queues := Deal(calls0, line, |cfg.quanta|, p);
    DealtAll(queues, p, line);
    UnseatedAll(calls0, e, line, calls);
    UnseatedPlaces(calls0, e);
  }

  /** The snapshot goes back to the queues of its levels, in order. */
  method Deal(calls0: seq<Call>, line: seq<nat>, levels: nat, ghost p: Places<nat>)
      returns (calls: seq<Call>, queues: seq<seq<nat>>)
    requires NoDup(line) && (forall i: nat :: i in line ==>
      i < |calls0| && i in p && p[i].queue == calls0[i].queue < levels) && Sorted(line, p)
    ensures SentBack(calls0, line, calls) && |calls| == |calls0| && |queues| == levels && Dealt(queues, p, line)
  {
    hide Dealt, SentBack;
    calls, queues := calls0, seq(levels, q => []);
    NothingDealt(queues, p);
    NobodySentBack(calls0);
    for k := 0 to |line|
      invariant |queues| == levels && Dealt(queues, p, line[..k]) && |calls| == |calls0|
        && SentBack(calls0, line[..k], calls)
    {
      var i := line[k];
      assert i in line;
      DealNext(queues, p, line, k);
      UnseatNext(calls0, line, k, calls);
      calls := calls[i := calls[i].(status := Queued)];
      queues := Push(queues, i, calls[i].queue);
    }
    TakeAll(line);
  }

  /** `refresh`: demotions and promotions, over a snapshot of the line. */
  method Refresh(cfg: Config, w: Workload, calls0: seq<Call>, entries: seq<Entry>, e: nat, queues0: seq<seq<nat>>,
                 counter0: nat) returns (calls: seq<Call>, queues: seq<seq<nat>>, counter: nat)
    requires RefreshReady(cfg, w, calls0, entries, e) && Stamps(calls0, counter0) && AllPlaces(cfg, calls0)
    requires |queues0| == |cfg.quanta| && Agrees(queues0, PlacesOf(calls0, e))
    ensures calls == Refreshed(cfg, w, calls0, entries, e, counter0)
    ensures counter == RefreshedKeys(cfg, w, calls0, entries, e, counter0).1
    ensures |queues| == |cfg.quanta| && Agrees(queues, PlacesOf(calls, e))
  {
    hide Sel, Stamps, Agrees, AllPlaces, HopsOf, Requeued, HopDeques, PlacesOf, Refreshed, MidRefresh;
    QueuedIsLine(cfg, calls0, counter0, e, queues0);
    LineSorted(calls0, counter0, e);
    var line := Sort(Flatten(queues0), PlacesOf(calls0, e));
    calls, queues, counter := calls0, queues0, counter0;
    RefreshBegins(cfg, w, calls0, entries, e, queues0, line, counter0);
    for k := 0 to |line|
      invariant MidRefresh(cfg, w, calls0, entries, e, queues0, line, k, counter0, calls, queues, counter)
    {
      RefreshTurn(cfg, w, calls0, entries, e, queues0, line, k, counter0, calls, queues, counter);
      var i := line[k];
      var c, deques, next := RequeueOne(cfg, i, calls[i], entries[w.specs[i].pid], queues, counter);
      RefreshTurned(cfg, w, calls0, entries, e, queues0, line, k, counter0, calls, queues, counter, c, deques, next);
      calls, queues, counter := calls[i := c], deques, next;
    }
    MidRefreshEnds(cfg, w, calls0, entries, e, queues0, line, counter0, calls, queues, counter);
  }

  lemma MidRefreshEnds(cfg: Config, w: Workload, calls0: seq<Call>, entries: seq<Entry>, e: nat, queues0: seq<seq<nat>>,
                       line: seq<nat>, counter0: nat, calls: seq<Call>, queues: seq<seq<nat>>, counter: nat)
    requires RefreshReady(cfg, w, calls0, entries, e) && |queues0| == |cfg.quanta| && line == Line(calls0, e)
      && NoDup(line)
    requires forall i: nat :: i in line <==> i < |calls0| && LiveOn(calls0[i], e)
    requires AllPlaces(cfg, calls0) && Stamps(calls0, counter0) && Agrees(queues0, PlacesOf(calls0, e))
    requires MidRefresh(cfg, w, calls0, entries, e, queues0, line, |line|, counter0, calls, queues, counter)
    ensures calls == Refreshed(cfg, w, calls0, entries, e, counter0)
    ensures counter == RefreshedKeys(cfg, w, calls0, entries, e, counter0).1
    ensures |queues| == |cfg.quanta| && Agrees(queues, PlacesOf(calls, e))
  {
    hide Sel, Stamps, HopsOf, Requeued, RefreshKeys, RefreshDeques, Agrees, Refreshed, RefreshedSoFar;
    TakeAll(line);
    RefreshEnds(cfg, w, calls0, entries, e, queues0, line, counter0, calls);
  }

  /** The fill after `k` starts. */
  ghost predicate MidFill(calls0: seq<Call>, engine0: Engine, at: int, k: nat, calls: seq<Call>, engine: Engine) {
    && k <= |engine0.prefetched|
    && engine == engine0.(running := engine0.running + engine0.prefetched[..k], prefetched := engine0.prefetched[k..])
    && calls == StartFirst(calls0, engine0.prefetched[..k], at)
  }

  lemma FillTurn(calls0: seq<Call>, engine0: Engine, at: int, k: nat, calls: seq<Call>, engine: Engine)
    requires MidFill(calls0, engine0, at, k, calls, engine) && NoDup(engine0.prefetched)
    requires forall i :: i in engine0.prefetched ==> i < |calls0|
    ensures |engine.prefetched| == |engine0.prefetched| - k && |engine.running| == |engine0.running| + k
    ensures engine.prefetched != [] ==>
      && engine.prefetched[0] < |calls|
      && MidFill(calls0, engine0, at, k + 1, calls[engine.prefetched[0] := StartCall(calls[engine.prefetched[0]], at)],
                 engine.(running := engine.running + [engine.prefetched[0]], prefetched := engine.prefetched[1..]))
  {
    hide StartCall;
    var pre := engine0.prefetched;
    if engine.prefetched != [] {
      assert engine.prefetched[0] == pre[k] && pre[k] in pre;
      StartNext(calls0, pre, k, at);
      TakeMore(pre, k);
      assert pre[k..][1..] == pre[k + 1..];
      assert (engine0.running + pre[..k]) + [pre[k]] == engine0.running + (pre[..k] + [pre[k]]);
    }
  }

  /** Start prefetched calls, oldest first, while there are free slots. */
  method Refill(cfg: Config, calls0: seq<Call>, e: nat, engine0: Engine, at: int, ghost counter: nat)
      returns (calls: seq<Call>, engine: Engine)
    requires EngineOk(cfg, calls0, e, engine0) && Stamps(calls0, counter)
    ensures calls == Fill(calls0, e, cfg.batch, at)
    ensures var k := |FillList(calls0, e, cfg.batch)|;
      k <= |engine0.prefetched| &&
      engine == engine0.(running := engine0.running + engine0.prefetched[..k], prefetched := engine0.prefetched[k..])
  {
    hide Sel, Stamps, Agrees, Fill, FillList, StartCall, MidFill;
    calls, engine := calls0, engine0;
    ghost var k := 0;
    SelFacts(calls0, counter, e, {Prefetched});
    FillStarts(calls0, engine0, at);
    while cfg.batch - |engine.running| > 0 && engine.prefetched != []
      invariant MidFill(calls0, engine0, at, k, calls, engine) && k <= Max(0, cfg.batch - |engine0.running|)
      decreases |engine.prefetched|
    {
      FillTurn(calls0, engine0, at, k, calls, engine);
      var next := engine.prefetched[0];
      calls := calls[next := StartCall(calls[next], at)];
      engine := engine.(running := engine.running + [next], prefetched := engine.prefetched[1..]);
      k := k + 1;
    }
    FillTurn(calls0, engine0, at, k, calls, engine);
    FillDone(cfg, calls0, e, engine0, at, k, calls, engine);
  }

  lemma FillStarts(calls: seq<Call>, engine: Engine, at: int)
    ensures MidFill(calls, engine, at, 0, calls, engine)
  {
    assert engine.running + engine.prefetched[..0] == engine.running && engine.prefetched[0..] == engine.prefetched;
  }

  lemma FillDone(cfg: Config, calls0: seq<Call>, e: nat, engine0: Engine, at: int, k: nat, calls: seq<Call>,
                 engine: Engine)
    requires EngineOk(cfg, calls0, e, engine0) && MidFill(calls0, engine0, at, k, calls, engine)
    requires k <= Max(0, cfg.batch - |engine0.running|)
      && (cfg.batch - |engine.running| <= 0 || engine.prefetched == [])
    ensures calls == Fill(calls0, e, cfg.batch, at) && k == |FillList(calls0, e, cfg.batch)|
    ensures engine == engine0.(running := engine0.running + engine0.prefetched[..k],
      prefetched := engine0.prefetched[k..])
  {
    hide Sel, Fill, FillList, StartCall, Agrees;
    FillWhole(cfg, calls0, e, k, at);
  }

  // ---- `schedule` -------------------------------------------------------------------

  /** The places of the calls that are still in the queues. */
  function Rest(p: Places<nat>, gone: seq<nat>): (r: Places<nat>)
    ensures forall i :: i in r <==> i in p && i !in gone
    ensures forall i :: i in r ==> r[i] == p[i]
  {
    map i | i in p && i !in gone :: p[i]
  }

  /** The seating after `k` pops. */
  ghost predicate MidSeat(cfg: Config, calls0: seq<Call>, p: Places<nat>, line: seq<nat>, at: int, k: nat,
                          calls: seq<Call>, engine: Engine) {
    && k <= |line| && calls == Seated(cfg, calls0, line, k, at)
    && (var b := if cfg.batch <= k then cfg.batch else k;
       engine.running == line[..b] && engine.prefetched == line[b..k])
    && |engine.queues| == |cfg.quanta| && Flatten(engine.queues) == line[k..]
    && Agrees(engine.queues, Rest(p, line[..k]))
  }

  lemma SeatStarts(cfg: Config, calls0: seq<Call>, p: Places<nat>, line: seq<nat>, at: int, queues: seq<seq<nat>>)
    requires |queues| == |cfg.quanta| && Flatten(queues) == line && Agrees(queues, p)
    ensures MidSeat(cfg, calls0, p, line, at, 0, calls0, Engine(queues, [], []))
  {
    hide Agrees;
    assert Rest(p, line[..0]) == p && line[0..] == line;
    assert Seated(cfg, calls0, line, 0, at) == calls0;
  }

  lemma RestStamped(p: Places<nat>, gone: seq<nat>, counter: nat)
    requires Stamped(p, counter)
    ensures Stamped(Rest(p, gone), counter)
  {
  }

  lemma SeatTurn(cfg: Config, calls0: seq<Call>, p: Places<nat>, line: seq<nat>, at: int, k: nat, calls: seq<Call>,
                 engine: Engine, next: nat, rest: seq<seq<nat>>, counter: nat)
    requires MidSeat(cfg, calls0, p, line, at, k, calls, engine) && NoDup(line) && Stamped(p, counter)
    requires forall i :: i in line ==> i < |calls0|
    requires |rest| == |engine.queues| && Flatten(engine.queues) == [next] + Flatten(rest)
    requires exists q: nat :: HeadOf(engine.queues, q, next) && rest == engine.queues[q := engine.queues[q][1..]]
    ensures k < |line| && next < |calls| && |engine.running| + |engine.prefetched| == k
      && |engine.running| == (if cfg.batch <= k then cfg.batch else k)
    ensures var seated := if |engine.running| < cfg.batch
        then engine.(queues := rest, running := engine.running + [next])
        else engine.(queues := rest, prefetched := engine.prefetched + [next]);
      MidSeat(cfg, calls0, p, line, at, k + 1,
        calls[next := if |engine.running| < cfg.batch then StartCall(calls[next], at)
          else calls[next].(status := Prefetched)], seated)
  {
    hide Agrees, Stamped, StartCall, Seated, Flatten, Rest;
    NextInLine(line, k, next, Flatten(rest));
    SeatNext(cfg, calls0, line, k, at);
    SeatAgrees(p, line, k, engine.queues, next, rest, counter);
    if cfg.batch <= k {
      assert line[cfg.batch..k + 1] == line[cfg.batch..k] + [next];
    } else {
      assert line[k..k] == [] == line[k + 1..k + 1];
      TakeMore(line, k);
    }
  }

  lemma NextInLine(line: seq<nat>, k: nat, next: nat, rest: seq<nat>)
    requires k <= |line| && line[k..] == [next] + rest
    ensures k < |line| && line[k] == next && rest == line[k + 1..] && next in line
  {
    assert line[k..][0] == line[k];
    assert rest == line[k..][1..];
  }

  /** The queues without the next call are the queues of the rest of the line. */
  lemma SeatAgrees(p: Places<nat>, line: seq<nat>, k: nat, queues: seq<seq<nat>>, next: nat, rest: seq<seq<nat>>,
                   counter: nat)
    requires k < |line| && line[k] == next && Stamped(p, counter) && Agrees(queues, Rest(p, line[..k]))
    requires exists q: nat :: HeadOf(queues, q, next) && rest == queues[q := queues[q][1..]]
    ensures Agrees(rest, Rest(p, line[..k + 1]))
  {
    hide Agrees, Stamped;
    var q: nat :| HeadOf(queues, q, next) && rest == queues[q := queues[q][1..]];
    RestStamped(p, line[..k], counter);
    PopAgrees(queues, Rest(p, line[..k]), q, next, counter);
    TakeMore(line, k);
    assert Rest(p, line[..k + 1]) == Rest(p, line[..k]) - {next};
  }

  /** `schedule`: pop the queues in order, into the batch first and then into the prefetch slots. */
  method Seat(cfg: Config, calls0: seq<Call>, e: nat, queues0: seq<seq<nat>>, at: int, ghost counter: nat)
      returns (calls: seq<Call>, engine: Engine)
    requires |queues0| == |cfg.quanta| && Agrees(queues0, PlacesOf(calls0, e)) && Stamps(calls0, counter)
    ensures var line := Line(calls0, e);
      MidSeat(cfg, calls0, PlacesOf(calls0, e), line, at, HoldCount(cfg, line), calls, engine)
  {
    hide Sel, Stamps, Stamped, Agrees, PlacesOf, StartCall, MidSeat, Seated, HoldCount;
    QueuedIsLine(cfg, calls0, counter, e, queues0);
    LineSorted(calls0, counter, e);
    StampsPlaces(calls0, counter, e);
    ghost var line, k := Line(calls0, e), 0;
    calls, engine := calls0, Engine(queues0, [], []);
    SeatStarts(cfg, calls0, PlacesOf(calls0, e), line, at, queues0);
    while |engine.running| + |engine.prefetched| < cfg.batch + cfg.over
      invariant MidSeat(cfg, calls0, PlacesOf(calls0, e), line, at, k, calls, engine)
      invariant k <= |line| && |engine.running| + |engine.prefetched| == k <= cfg.batch + cfg.over
      decreases |line| - k
    {
      var next, rest := PopNextQueued(engine.queues);
      if next.None? {
        SeatOver(cfg, calls0, PlacesOf(calls0, e), line, at, k, calls, engine);
        HoldIs(cfg, line, k);
        return;
      }
      SeatTurn(cfg, calls0, PlacesOf(calls0, e), line, at, k, calls, engine, next.value, rest, counter);
      var i := next.value;
      if |engine.running| < cfg.batch {
        calls := calls[i := StartCall(calls[i], at)];
        engine := engine.(queues := rest, running := engine.running + [i]);
      } else {
        calls := calls[i := calls[i].(status := Prefetched)];
        engine := engine.(queues := rest, prefetched := engine.prefetched + [i]);
      }
      k := k + 1;
      SeatCounts(cfg, calls0, PlacesOf(calls0, e), line, at, k, calls, engine);
    }
    HoldIs(cfg, line, k);
  }

  lemma HoldIs(cfg: Config, line: seq<nat>, k: nat)
    requires k <= |line| && k <= cfg.batch + cfg.over && (k == |line| || k == cfg.batch + cfg.over)
    ensures k == HoldCount(cfg, line)
  {
  }

  lemma SeatCounts(cfg: Config, calls0: seq<Call>, p: Places<nat>, line: seq<nat>, at: int, k: nat, calls: seq<Call>,
                   engine: Engine)
    requires MidSeat(cfg, calls0, p, line, at, k, calls, engine)
    ensures k <= |line| && |engine.running| + |engine.prefetched| == k
  {
    hide Agrees, Seated;
  }

  lemma SeatOver(cfg: Config, calls0: seq<Call>, p: Places<nat>, line: seq<nat>, at: int, k: nat, calls: seq<Call>,
                 engine: Engine)
    requires MidSeat(cfg, calls0, p, line, at, k, calls, engine) && Flatten(engine.queues) == []
    ensures k == |line|
  {
    hide Agrees, Seated;
  }

  /** The penalty of every victim. */
  method ChargeVictims(cfg: Config, calls0: seq<Call>, victims: seq<nat>) returns (calls: seq<Call>)
    requires NoDup(victims) && forall i :: i in victims ==> i < |calls0|
    ensures |calls| == |calls0|
    ensures forall i: nat :: i < |calls0| ==> calls[i] == Charged(cfg, calls0[i], |victims|, i in victims)
  {
    hide Charged;
    calls := calls0;
    NobodyCharged(cfg, calls0, |victims|);
    var penalty := if victims == [] then 0 else cfg.penalty(|victims|);
    for k := 0 to |victims|
      invariant |calls| == |calls0|
      invariant forall i: nat :: i < |calls0| ==> calls[i] == Charged(cfg, calls0[i], |victims|, i in victims[..k])
    {
      var i := victims[k];
      TakeMore(victims, k);
      assert i in victims && i !in victims[..k];
      ChargedOnce(cfg, calls0[i], |victims|);
      calls := calls[i := calls[i].(swap := calls[i].swap + penalty, swapLeft := calls[i].swapLeft + penalty)];
    }
    TakeAll(victims);
  }

  lemma NobodyCharged(cfg: Config, calls: seq<Call>, victims: nat)
    ensures forall i: nat :: i < |calls| ==> calls[i] == Charged(cfg, calls[i], victims, false)
  {
  }

  lemma ChargedOnce(cfg: Config, c: Call, victims: nat)
    ensures Charged(cfg, c, victims, false) == c
    ensures Charged(cfg, c, victims, true)
      == c.(swap := c.swap + cfg.penalty(victims), swapLeft := c.swapLeft + cfg.penalty(victims))
  {
  }

  /** After the selection the engine's lists are the three parts of the line. */
  lemma SelectedEngine(cfg: Config, calls: seq<Call>, counter: nat, e: nat, time: int, seated: seq<Call>,
                       engine: Engine)
    requires Stamps(calls, counter)
    requires MidSeat(cfg, Unseated(calls, e), PlacesOf(calls, e), Line(calls, e), time, HoldCount(cfg, Line(calls, e)),
      seated, engine)
    ensures EngineOk(cfg, Selected(cfg, calls, e, time), e, engine)
  {
    hide Sel, Stamps, Agrees, Selected, Victims, Seated, Line, InOrder, QueuedPlaces, Rest;
    SelectLists(cfg, calls, counter, e, time);
    SelectedPlaces(cfg, calls, counter, e, time);
  }

  /** Who still queues after a selection: the line behind the slots. */
  lemma SelectedPlaces(cfg: Config, calls: seq<Call>, counter: nat, e: nat, time: int)
    requires Stamps(calls, counter)
    ensures var line := Line(calls, e);
      QueuedPlaces(Selected(cfg, calls, e, time), e) == Rest(PlacesOf(calls, e), line[..HoldCount(cfg, line)])
  {
    hide Sel, Stamps, Selected, Victims, Line;
    var r, line := Selected(cfg, calls, e, time), Line(calls, e);
    var run, hold := RunCount(cfg, line), HoldCount(cfg, line);
    SelectStatus(cfg, calls, counter, e, time);
    SelectKeys(cfg, calls, counter, e, time);
    SeatedMembers(line, run, hold);
    forall i: nat ensures i in QueuedPlaces(r, e) <==> i in Rest(PlacesOf(calls, e), line[..hold]) {
    }
  }

  /** A scheduling decision touches one engine. */
  lemma RescheduledEngines(cfg: Config, w: Workload, s: Sim, engines: seq<Engine>, e: nat, seated: seq<Call>,
                           engine: Engine)
    requires Inv(cfg, w, s) && Shape(cfg, w, s) && e < cfg.engines && EnginesOk(cfg, s.calls, engines)
    requires s.windows[e] == 0 || RunningOn(s.calls, e) == []
    requires RefreshReady(cfg, w, s.calls, s.entries, e)
    requires var refreshed := Refreshed(cfg, w, s.calls, s.entries, e, s.counter);
      var line := Line(refreshed, e);
      MidSeat(cfg, Unseated(refreshed, e), PlacesOf(refreshed, e), line, s.time, HoldCount(cfg, line), seated, engine)
    ensures EnginesOk(cfg, ScheduleEngine(cfg, w, s, e).calls, engines[e := engine])
    ensures PendingSet(ScheduleEngine(cfg, w, s, e).calls) == PendingSet(s.calls)
    ensures Shape(cfg, w, ScheduleEngine(cfg, w, s, e))
  {
    hide Sel, Stamps, Inv, Shape, ScheduleEngine, Refreshed, Selected, EnginesOk, EngineOk, MidSeat, AllPlaces,
      AllSlots;
    ShapeParts(cfg, w, s);
    InvStart(cfg, w, s);
    Rescheduled(cfg, w, s, e);
    ScheduleInv(cfg, w, s, e);
    var r, refreshed := ScheduleEngine(cfg, w, s, e), Refreshed(cfg, w, s.calls, s.entries, e, s.counter);
    InvStart(cfg, w, r);
    SelectedEngine(cfg, refreshed, r.counter, e, s.time, seated, engine);
    EngineAt(cfg, s.calls, engines, e);
    ScheduleTouches(cfg, w, s, e);
    OneEngine(cfg, s.calls, r.calls, s.counter, r.counter, engines, e, engine);
  }

  lemma ScheduleTouches(cfg: Config, w: Workload, s: Sim, e: nat)
    requires Inv(cfg, w, s) && e < cfg.engines
    ensures var r := ScheduleEngine(cfg, w, s, e);
      && |r.calls| == |s.calls| && PendingSet(r.calls) == PendingSet(s.calls)
      && forall i :: 0 <= i < |s.calls| ==>
        r.calls[i] == s.calls[i] || (s.calls[i].engine == e && r.calls[i].engine == e)
  {
    hide Inv, Shape, ScheduleEngine, Stamps, AllPlaces, AllSlots;
    InvStart(cfg, w, s);
    ShapeSizes(cfg, w, s);
    ShapeSizes(cfg, w, ScheduleEngine(cfg, w, s, e));
    forall i: nat | i < |s.calls|
      ensures var c, c' := s.calls[i], ScheduleEngine(cfg, w, s, e).calls[i];
        (c' == c || (c.engine == e && c'.engine == e)) && (c'.status == Pending <==> c.status == Pending)
    {
      ScheduleKeeps(cfg, w, s, e, i);
    }
  }

  /** The scheduling decision of one engine: everybody back to the queues, refresh, seat, charge the victims. */
  method Decide(cfg: Config, w: Workload, calls0: seq<Call>, entries: seq<Entry>, e: nat, engine0: Engine, time: int,
                counter0: nat) returns (calls: seq<Call>, engine: Engine, counter: nat, ghost seated: seq<Call>)
    requires RefreshReady(cfg, w, calls0, entries, e) && EngineOk(cfg, calls0, e, engine0) && Stamps(calls0, counter0)
      && AllPlaces(cfg, calls0)
    requires Stamps(Refreshed(cfg, w, calls0, entries, e, counter0),
      RefreshedKeys(cfg, w, calls0, entries, e, counter0).1)
    requires InOrder(calls0, engine0.running + engine0.prefetched)
    ensures calls == Selected(cfg, Refreshed(cfg, w, calls0, entries, e, counter0), e, time)
    ensures counter == RefreshedKeys(cfg, w, calls0, entries, e, counter0).1
    ensures var refreshed := Refreshed(cfg, w, calls0, entries, e, counter0);
      var line := Line(refreshed, e);
      MidSeat(cfg, Unseated(refreshed, e), PlacesOf(refreshed, e), line, time, HoldCount(cfg, line), seated, engine)
  {
    hide Sel, Stamps, EngineOk, AllPlaces, Refreshed, RefreshedKeys, InOrder, MidSeat, Unseated, PlacesOf, Selected,
      Victims, HoldCount, Filter, Agrees, Charged;
    var resident := engine0.running + engine0.prefetched;
    ghost var refreshed0, keys := Refreshed(cfg, w, calls0, entries, e, counter0),
      RefreshedKeys(cfg, w, calls0, entries, e, counter0);
    DecideStart(cfg, w, calls0, entries, e, counter0);
    var unseated, queues := SendBack(cfg, calls0, e, engine0, counter0);
    var refreshed, deques;
    refreshed, deques, counter := Refresh(cfg, w, unseated, entries, e, queues, counter0);
    var chosen;
    chosen, engine := Seat(cfg, refreshed, e, deques, time, counter);
    seated := chosen;
    var scheduled := engine.running + engine.prefetched;
    var victims := Filter(resident, (i: nat) => i !in scheduled);
    DecideVictims(cfg, w, calls0, refreshed0, keys.1, e, engine0, time, seated, engine, victims);
    calls := ChargeVictims(cfg, chosen, victims);
    DecideEnds(cfg, refreshed0, keys.1, e, time, seated, engine, victims, calls);
  }

  lemma DecideStart(cfg: Config, w: Workload, calls: seq<Call>, entries: seq<Entry>, e: nat, counter: nat)
    requires RefreshReady(cfg, w, calls, entries, e) && Stamps(calls, counter) && AllPlaces(cfg, calls)
    requires Stamps(Refreshed(cfg, w, calls, entries, e, counter), RefreshedKeys(cfg, w, calls, entries, e, counter).1)
    ensures var u, refreshed, keys := Unseated(calls, e), Refreshed(cfg, w, calls, entries, e, counter),
      RefreshedKeys(cfg, w, calls, entries, e, counter);
      && |u| == |calls| && RefreshReady(cfg, w, u, entries, e) && Stamps(u, counter) && AllPlaces(cfg, u)
      && Refreshed(cfg, w, u, entries, e, counter) == Unseated(refreshed, e)
      && RefreshedKeys(cfg, w, u, entries, e, counter) == keys
      && Stamps(Unseated(refreshed, e), keys.1)
      && Line(Unseated(refreshed, e), e) == Line(refreshed, e)
      && PlacesOf(Unseated(refreshed, e), e) == PlacesOf(refreshed, e)
      && |refreshed| == |calls|
      && (forall i :: 0 <= i < |calls| ==>
         refreshed[i].status == calls[i].status && refreshed[i].engine == calls[i].engine)
  {
    hide Sel, Stamps, Refreshed, RefreshedKeys, PlacesOf;
    UnseatedStamps(calls, counter, e);
    RefreshUnseated(cfg, w, calls, counter, entries, e);
    var refreshed, keys := Refreshed(cfg, w, calls, entries, e, counter),
      RefreshedKeys(cfg, w, calls, entries, e, counter);
    UnseatedStamps(refreshed, keys.1, e);
    UnseatedPlaces(refreshed, e);
    UnseatedLine(refreshed, keys.1, e);
    UnseatedFits(cfg, calls, e);
    RefreshSeats(cfg, w, calls, entries, e, counter);
  }

  lemma RefreshSeats(cfg: Config, w: Workload, calls: seq<Call>, entries: seq<Entry>, e: nat, counter: nat)
    requires RefreshReady(cfg, w, calls, entries, e)
    ensures var refreshed := Refreshed(cfg, w, calls, entries, e, counter);
      forall i :: 0 <= i < |calls| ==> refreshed[i].status == calls[i].status && refreshed[i].engine == calls[i].engine
  {
    hide Sel, Refreshed, RefreshedKeys, HopsOf, Promoted;
  }

  lemma UnseatedFits(cfg: Config, calls: seq<Call>, e: nat)
    requires AllPlaces(cfg, calls)
    ensures AllPlaces(cfg, Unseated(calls, e))
  {
    forall i | 0 <= i < |calls| ensures Placed(cfg, Unseated(calls, e)[i]) {
      assert Placed(cfg, calls[i]);
    }
  }

  lemma UnseatedLine(calls: seq<Call>, counter: nat, e: nat)
    requires Stamps(calls, counter)
    ensures Line(Unseated(calls, e), e) == Line(calls, e)
  {
    hide Sel, Stamps;
    UnseatedStamps(calls, counter, e);
    SelSame(calls, Unseated(calls, e), counter, counter, e, LIVE);
  }

  /** The resident calls that were not seated again. */
  lemma DecideVictims(cfg: Config, w: Workload, calls: seq<Call>, refreshed: seq<Call>, counter: nat, e: nat,
                      engine0: Engine, time: int, seated: seq<Call>, engine: Engine, victims: seq<nat>)
    requires EngineOk(cfg, calls, e, engine0) && InOrder(calls, engine0.running + engine0.prefetched)
      && Stamps(refreshed, counter)
    requires |refreshed| == |calls| && forall i :: 0 <= i < |calls| ==>
      refreshed[i].status == calls[i].status && refreshed[i].engine == calls[i].engine
    requires MidSeat(cfg, Unseated(refreshed, e), PlacesOf(refreshed, e), Line(refreshed, e), time,
      HoldCount(cfg, Line(refreshed, e)), seated, engine)
    requires victims == Filter(engine0.running + engine0.prefetched,
      (i: nat) => i !in engine.running + engine.prefetched)
    ensures |seated| == |calls| && NoDup(victims) && (forall i :: i in victims ==> i < |seated|)
    ensures |victims| == |Victims(cfg, refreshed, e)| && forall i: nat :: i in victims <==>
      i in Victims(cfg, refreshed, e)
  {
    hide Sel, Stamps, Agrees, Victims, KeyLess, PlacesOf, Seated;
    var resident, scheduled, line := engine0.running + engine0.prefetched, engine.running + engine.prefetched,
      Line(refreshed, e);
    var hold := HoldCount(cfg, line);
    assert scheduled == line[..hold] by {
      ScheduledFront(cfg, Unseated(refreshed, e), PlacesOf(refreshed, e), line, time, hold, seated, engine);
    }
    OrderNoDup(calls, resident);
    FilterMembers(resident, (i: nat) => i !in scheduled);
    assert Filter(resident, (i: nat) => i !in scheduled) == victims by {
      FilterSame(resident, (i: nat) => i !in scheduled, (i: nat) => i !in engine.running + engine.prefetched);
    }
    VictimsAre(cfg, refreshed, counter, e, resident, scheduled, victims);
  }

  lemma ScheduledFront(cfg: Config, calls: seq<Call>, p: Places<nat>, line: seq<nat>, at: int, k: nat, now: seq<Call>,
                       engine: Engine)
    requires MidSeat(cfg, calls, p, line, at, k, now, engine)
    ensures k <= |line| && engine.running + engine.prefetched == line[..k]
  {
    hide Agrees, Seated;
  }

  lemma OrderNoDup(calls: seq<Call>, list: seq<nat>)
    requires InOrder(calls, list)
    ensures NoDup(list)
  {
    forall j, k | 0 <= j < k < |list| ensures list[j] != list[k] {
      assert KeyLess(calls[list[j]], calls[list[k]]);
    }
  }

  lemma DecideEnds(cfg: Config, refreshed: seq<Call>, counter: nat, e: nat, time: int, seated: seq<Call>,
                   engine: Engine, victims: seq<nat>, calls: seq<Call>)
    requires Stamps(refreshed, counter)
    requires MidSeat(cfg, Unseated(refreshed, e), PlacesOf(refreshed, e), Line(refreshed, e), time,
      HoldCount(cfg, Line(refreshed, e)), seated, engine)
    requires |victims| == |Victims(cfg, refreshed, e)| && forall i: nat :: i in victims <==>
      i in Victims(cfg, refreshed, e)
    requires |calls| == |seated| && forall i: nat :: i < |seated| ==>
      calls[i] == Charged(cfg, seated[i], |victims|, i in victims)
    ensures calls == Selected(cfg, refreshed, e, time)
  {
    hide Sel, Stamps, Agrees, Victims, Charged, Seated, Selected, PlacesOf;
    SeatsAreSelection(cfg, refreshed, counter, e, time, victims, calls);
  }

  // ---- `_execute_one_tick` ---------------------------------------------------------------

  /** A running call's tick, before completion is recorded. */
  function Worked(c: Call): Call {
    if c.swapLeft != 0 then c.(swapLeft := c.swapLeft - 1)
    else if c.schedLeft != 0 then c.(schedLeft := c.schedLeft - 1)
    else c.(remaining := c.remaining - 1, executed := c.executed + 1, runWindow := c.runWindow + 1,
      quantum := c.quantum - 1)
  }

  predicate Ends(c: Call) { c.swapLeft == 0 && c.schedLeft == 0 && c.remaining - 1 <= 0 }

  function EndsAt(calls: seq<Call>): nat -> bool { (i: nat) => i < |calls| && Ends(calls[i]) }

  ghost predicate MidWork(calls0: seq<Call>, e: nat, time: int, run: seq<nat>, k: nat, calls: seq<Call>, rows: seq<Row>,
                          finished: seq<nat>, executed: bool)
    requires forall i :: i in run ==> i < |calls0|
  {
    && k <= |run| && |calls| == |calls0| && (forall i :: i in run[..k] ==> i in run)
    && (forall i: nat :: i < |calls0| ==> calls[i] == if i in run[..k] then Worked(calls0[i]) else calls0[i])
    && rows == Rows(calls0, e, time, run[..k])
    && finished == Filter(run[..k], EndsAt(calls0))
    && (executed <==> exists j :: 0 <= j < k && run[j] < |calls0| && Executes(calls0[run[j]]))
  }

  lemma WorkTurn(calls0: seq<Call>, e: nat, time: int, run: seq<nat>, k: nat, calls: seq<Call>, rows: seq<Row>,
                 finished: seq<nat>, executed: bool)
    requires (forall i :: i in run ==> i < |calls0| && calls0[i].status == Running) && NoDup(run) && k < |run|
    requires MidWork(calls0, e, time, run, k, calls, rows, finished, executed)
    ensures run[k] < |calls| == |calls0| && calls[run[k]] == calls0[run[k]]
    ensures var i, c := run[k], calls0[run[k]];
      MidWork(calls0, e, time, run, k + 1, calls[i := Worked(c)],
              if Executes(c) then rows + [Row(time, e, i, c.queue)] else rows,
              if Ends(c) then finished + [i] else finished, executed || Executes(c))
  {
    hide Worked, Executes, Ends, Filter;
    assert run[k] in run;
    var i, c := run[k], calls0[run[k]];
    assert rows + [] == rows && finished + [] == finished;
    TakeMore(run, k);
    assert i !in run[..k] && run[..k + 1][..k] == run[..k];
    FilterAppend(run[..k], [i], EndsAt(calls0));
    EndsAlone(calls0, i);
  }

  lemma EndsAlone(calls: seq<Call>, i: nat)
    requires i < |calls|
    ensures Filter([i], EndsAt(calls)) == if Ends(calls[i]) then [i] else []
  {
  }

  /** The first loop of a tick: swap ticks, scheduler ticks and model ticks of the running calls. */
  method Work(calls0: seq<Call>, e: nat, time: int, run: seq<nat>)
      returns (calls: seq<Call>, rows: seq<Row>, finished: seq<nat>, executed: bool)
    requires (forall i :: i in run ==> i < |calls0| && calls0[i].status == Running) && NoDup(run)
    ensures MidWork(calls0, e, time, run, |run|, calls, rows, finished, executed)
  {
    hide MidWork;
    calls, rows, finished, executed := calls0, [], [], false;
    WorkStarts(calls0, e, time, run);
    for k := 0 to |run|
      invariant MidWork(calls0, e, time, run, k, calls, rows, finished, executed)
    {
      WorkTurn(calls0, e, time, run, k, calls, rows, finished, executed);
      var i := run[k];
      var c := calls[i];
      if c.swapLeft != 0 {
        calls := calls[i := c.(swapLeft := c.swapLeft - 1)];
      } else if c.schedLeft != 0 {
        calls := calls[i := c.(schedLeft := c.schedLeft - 1)];
      } else {
        assert i in run;
        c := c.(remaining := c.remaining - 1, executed := c.executed + 1, runWindow := c.runWindow + 1,
          quantum := c.quantum - 1);
        executed := true;
        rows := rows + [Row(time, e, i, c.queue)];
        if c.remaining <= 0 {
          finished := finished + [i];
        }
        calls := calls[i := c];
      }
    }
  }

  lemma WorkStarts(calls: seq<Call>, e: nat, time: int, run: seq<nat>)
    requires forall i :: i in run ==> i < |calls|
    ensures MidWork(calls, e, time, run, 0, calls, [], [], false)
  {
  }

  function Completed(c: Call, time: int): Call { c.(status := Finished, finish := Some(time + 1)) }

  ghost predicate MidComplete(cfg: Config, w: Workload, calls0: seq<Call>, entries0: seq<Entry>, run: seq<nat>,
                              time: int, finished: seq<nat>, k: nat, calls: seq<Call>, entries: seq<Entry>,
                              running: seq<nat>, done: seq<Call>)
    requires |calls0| == |w.specs| == |done| && (forall i :: 0 <= i < |w.specs| ==> w.specs[i].pid < |entries0|)
    requires forall i :: i in finished ==> i < |calls0|
  {
    && k <= |finished| && |calls| == |calls0| && (forall i :: i in finished[..k] ==> i in finished)
    && (forall i: nat :: i < |calls0| ==>
       calls[i] == if i in finished[..k] then Completed(calls0[i], time) else calls0[i])
    && entries == Settle(cfg, w, entries0, done, finished[..k])
    && running == Filter(run, NotIn(finished[..k]))
  }

  function NotIn(ids: seq<nat>): nat -> bool { (i: nat) => i !in ids }

  lemma CompleteTurn(cfg: Config, w: Workload, calls0: seq<Call>, entries0: seq<Entry>, run: seq<nat>, time: int,
                     finished: seq<nat>, k: nat, calls: seq<Call>, entries: seq<Entry>, running: seq<nat>,
                     done: seq<Call>)
    requires |calls0| == |w.specs| == |done| && (forall i :: 0 <= i < |w.specs| ==> w.specs[i].pid < |entries0|)
    requires NoDup(run) && NoDup(finished)
      && (forall i :: i in finished ==> i < |calls0| && i in run && done[i] == Completed(calls0[i], time))
    requires MidComplete(cfg, w, calls0, entries0, run, time, finished, k, calls, entries, running, done)
      && k < |finished|
    ensures finished[k] < |calls| && |entries| == |entries0| && calls[finished[k]] == calls0[finished[k]]
    ensures var i := finished[k];
      var c, pid := Completed(calls0[i], time), w.specs[i].pid;
      MidComplete(cfg, w, calls0, entries0, run, time, finished, k + 1, calls[i := c],
                  entries[pid := Entry(ServiceAfter(cfg.policy, entries[pid], c), entries[pid].waiting + c.wait)],
                    Without(running, i), done)
  {
    hide ServiceAfter, Settle;
    var i := finished[k];
    assert i in finished;
    TakeMore(finished, k);
    assert i !in finished[..k];
    SettleLast(cfg, w, entries0, done, finished[..k], i);
    FilterWithout(run, finished[..k], i);
  }

  lemma FilterWithout(run: seq<nat>, gone: seq<nat>, i: nat)
    requires NoDup(run)
    ensures Without(Filter(run, NotIn(gone)), i) == Filter(run, NotIn(gone + [i]))
  {
    var running := Filter(run, NotIn(gone));
    FilterMembers(run, NotIn(gone));
    assert running + [] == running;
    WithoutSplit(running, [], i);
    FilterBoth(run, NotIn(gone), Not(i), NotIn(gone + [i]));
  }

  /** The second loop of a tick: take the finished calls off the running list and settle their programs. */
  method Complete(cfg: Config, w: Workload, calls0: seq<Call>, entries0: seq<Entry>, run: seq<nat>, time: int,
                  finished: seq<nat>, ghost done: seq<Call>)
      returns (calls: seq<Call>, entries: seq<Entry>, running: seq<nat>)
    requires |calls0| == |w.specs| == |done| && (forall i :: 0 <= i < |w.specs| ==> w.specs[i].pid < |entries0|)
    requires NoDup(run) && NoDup(finished)
      && (forall i :: i in finished ==> i < |calls0| && i in run && done[i] == Completed(calls0[i], time))
    ensures MidComplete(cfg, w, calls0, entries0, run, time, finished, |finished|, calls, entries, running, done)
  {
    hide MidComplete, ServiceAfter;
    calls, entries, running := calls0, entries0, run;
    CompleteStarts(cfg, w, calls0, entries0, run, time, finished, done);
    for k := 0 to |finished|
      invariant MidComplete(cfg, w, calls0, entries0, run, time, finished, k, calls, entries, running, done)
    {
      CompleteTurn(cfg, w, calls0, entries0, run, time, finished, k, calls, entries, running, done);
      var i := finished[k];
      assert i in finished;
      running := Without(running, i);
      var c, pid := calls[i].(status := Finished, finish := Some(time + 1)), w.specs[i].pid;
      calls := calls[i := c];
      entries := entries[pid := Entry(ServiceAfter(cfg.policy, entries[pid], c), entries[pid].waiting + c.wait)];
    }
  }

  lemma CompleteStarts(cfg: Config, w: Workload, calls: seq<Call>, entries: seq<Entry>, run: seq<nat>, time: int,
                       finished: seq<nat>, done: seq<Call>)
    requires |calls| == |w.specs| == |done| && (forall i :: 0 <= i < |w.specs| ==> w.specs[i].pid < |entries|)
    requires forall i :: i in finished ==> i < |calls|
    ensures MidComplete(cfg, w, calls, entries, run, time, finished, 0, calls, entries, run, done)
  {
    FilterAll(run, NotIn([]));
  }

  function Awaited(c: Call): Call { c.(wait := c.wait + 1, waitWindow := c.waitWindow + 1) }

  /** `tick_queued_wait`. */
  method Await(calls0: seq<Call>, waiting: seq<nat>) returns (calls: seq<Call>)
    requires NoDup(waiting) && forall i :: i in waiting ==> i < |calls0|
    ensures |calls| == |calls0|
    ensures forall i: nat :: i < |calls0| ==> calls[i] == if i in waiting then Awaited(calls0[i]) else calls0[i]
  {
    calls := calls0;
    for k := 0 to |waiting|
      invariant |calls| == |calls0|
      invariant forall i: nat :: i < |calls0| ==>
        calls[i] == if i in waiting[..k] then Awaited(calls0[i]) else calls0[i]
    {
      var i := waiting[k];
      TakeMore(waiting, k);
      assert i in waiting && i !in waiting[..k];
      calls := calls[i := calls[i].(wait := calls[i].wait + 1, waitWindow := calls[i].waitWindow + 1)];
    }
    TakeAll(waiting);
  }

  /** Settling looks at the finished calls only. */
  lemma {:induction false} SettleFiltered(cfg: Config, w: Workload, entries: seq<Entry>, calls: seq<Call>,
                                          ids: seq<nat>, ends: nat -> bool)
    requires |calls| == |w.specs| && (forall i :: i in ids ==> i < |calls|)
      && (forall i :: 0 <= i < |w.specs| ==> w.specs[i].pid < |entries|)
    requires forall i :: i in ids ==> (ends(i) <==> calls[i].status == Finished)
    ensures forall i :: i in Filter(ids, ends) ==> i in ids
    ensures Settle(cfg, w, entries, calls, Filter(ids, ends)) == Settle(cfg, w, entries, calls, ids)
  {
    hide Settle, Filter;
    FilterMembers(ids, ends);
    if ids == [] {
      FilterAll(ids, ends);
    } else {
      var front, i := ids[..|ids| - 1], ids[|ids| - 1];
      TakeMore(ids, |ids| - 1);
      TakeAll(ids);
      assert i in ids && forall j :: j in front ==> j in ids;
      SettleFiltered(cfg, w, entries, calls, front, ends);
      FilterLast(front, i, ends);
      FilterMembers(front, ends);
      SettleLast(cfg, w, entries, calls, front, i);
      SettleLast(cfg, w, entries, calls, Filter(front, ends), i);
    }
  }

  lemma FilterLast<T>(front: seq<T>, last: T, keep: T -> bool)
    ensures Filter(front + [last], keep) == if keep(last) then Filter(front, keep) + [last] else Filter(front, keep)
  {
    FilterAppend(front, [last], keep);
    assert Filter([last], keep) == if keep(last) then [last] else [];
    assert Filter(front, keep) + [] == Filter(front, keep);
  }

  /** The three loops of a tick together are the tick of the state machine. */
  lemma TickLoops(cfg: Config, w: Workload, calls0: seq<Call>, counter: nat, entries0: seq<Entry>, e: nat,
                  engine: Engine, time: int, worked: seq<Call>, rows: seq<Row>, finished: seq<nat>, executed: bool,
                  completed: seq<Call>, entries: seq<Entry>, running: seq<nat>, calls: seq<Call>)
    requires |calls0| == |w.specs| && (forall i :: 0 <= i < |w.specs| ==> w.specs[i].pid < |entries0|)
    requires EngineOk(cfg, calls0, e, engine) && Stamps(calls0, counter)
    requires MidWork(calls0, e, time, engine.running, |engine.running|, worked, rows, finished, executed)
    requires forall i :: i in finished ==> i < |worked|
    requires MidComplete(cfg, w, worked, entries0, engine.running, time, finished, |finished|, completed, entries,
      running, Ticked(calls0, e, time))
    requires |calls| == |calls0| && forall i: nat :: i < |calls0| ==>
      calls[i] == if i in Flatten(engine.queues) + engine.prefetched then Awaited(completed[i]) else completed[i]
    ensures calls == Ticked(calls0, e, time)
    ensures rows == Rows(calls0, e, time, RunningOn(calls0, e)) && (executed <==> AnyExecutes(calls0, e))
    ensures entries == Settle(cfg, w, entries0, Ticked(calls0, e, time), RunningOn(calls0, e))
    ensures running == Filter(engine.running, NotIn(finished)) && finished == Filter(engine.running, EndsAt(calls0))
  {
    hide Sel, Stamps, Agrees, Ticked, Settle, Rows, Worked, Completed, Awaited, AnyExecutes;
    TakeAll(engine.running);
    TakeAll(finished);
    QueueMembers(cfg, calls0, counter, e, engine.queues);
    FilterMembers(engine.running, EndsAt(calls0));
    forall i: nat | i < |calls0| ensures calls[i] == Ticked(calls0, e, time)[i] {
      TickLoopsOne(calls0[i], e, time, i in engine.running, i in finished);
    }
    forall i: nat | i in engine.running ensures EndsAt(calls0)(i) <==> Ticked(calls0, e, time)[i].status == Finished {
      TickLoopsOne(calls0[i], e, time, true, EndsAt(calls0)(i));
    }
    SettleFiltered(cfg, w, entries0, Ticked(calls0, e, time), engine.running, EndsAt(calls0));
    ExecutedIs(cfg, calls0, e, engine.running, executed);
  }

  lemma TickLoopsOne(c: Call, e: nat, time: int, runs: bool, ends: bool)
    requires runs <==> c.engine == e && c.status == Running
    requires ends <==> runs && Ends(c)
    ensures runs ==> TickCall(c, time) == if ends then Completed(Worked(c), time) else Worked(c)
    ensures runs ==> (ends <==> TickCall(c, time).status == Finished)
    ensures LiveOn(c, e) && !runs ==> TickCall(c, time) == Awaited(c)
  {
  }

  lemma ExecutedIs(cfg: Config, calls: seq<Call>, e: nat, run: seq<nat>, executed: bool)
    requires run == RunningOn(calls, e)
    requires executed <==> exists j :: 0 <= j < |run| && run[j] < |calls| && Executes(calls[run[j]])
    ensures executed <==> AnyExecutes(calls, e)
  {
    hide Sel;
    if AnyExecutes(calls, e) {
      var i :| 0 <= i < |calls| && calls[i].engine == e && Executes(calls[i]);
      assert i in run;
    }
    if executed {
      var j :| 0 <= j < |run| && run[j] < |calls| && Executes(calls[run[j]]);
      assert run[j] in run;
    }
  }

  /** The calls that a tick settles are the ones it finishes. */
  lemma FinishedOnes(calls: seq<Call>, e: nat, time: int, run: seq<nat>, worked: seq<Call>, rows: seq<Row>,
                     finished: seq<nat>, executed: bool)
    requires NoDup(run) && (forall i: nat :: i in run <==>
      i < |calls| && calls[i].engine == e && calls[i].status == Running)
    requires MidWork(calls, e, time, run, |run|, worked, rows, finished, executed)
    ensures |worked| == |calls| && NoDup(finished)
    ensures forall i :: i in finished ==>
      i < |worked| && i in run && Ticked(calls, e, time)[i] == Completed(worked[i], time)
  {
    hide Ticked, Rows, Worked, Completed;
    TakeAll(run);
    FilterMembers(run, EndsAt(calls));
    forall i | i in finished ensures Ticked(calls, e, time)[i] == Completed(worked[i], time) {
      TickLoopsOne(calls[i], e, time, true, true);
    }
  }

  /** After the loops of a tick the engine's lists are again what the records say. */
  lemma TickedEngine(cfg: Config, calls: seq<Call>, counter: nat, e: nat, engine: Engine, time: int, finished: seq<nat>)
    requires EngineOk(cfg, calls, e, engine) && Stamps(calls, counter) && Slots(cfg, calls, e)
    requires finished == Filter(engine.running, EndsAt(calls))
    ensures var r := Ticked(calls, e, time);
      && Stamps(r, counter) && InOrder(r, RunningOn(r, e) + PrefetchedOn(r, e))
      && EngineOk(cfg, r, e, engine.(running := Filter(engine.running, NotIn(finished))))
  {
    hide Sel, Stamps, Agrees, Ticked, KeyLess, Filter;
    var r, left := Ticked(calls, e, time), Filter(engine.running, NotIn(finished));
    TickedLists(cfg, calls, counter, e, time);
    TickedStatus(calls, e, time);
    StillRunning(calls, e, engine.running, time, finished);
    SelFacts(calls, counter, e, {Running});
    OrderFilter(calls, engine.running, NotIn(finished));
    OrderSame(calls, r, left);
    SelIs(r, counter, e, {Running}, left);
    assert QueuedPlaces(r, e) == QueuedPlaces(calls, e);
  }

  lemma StillRunning(calls: seq<Call>, e: nat, running: seq<nat>, time: int, finished: seq<nat>)
    requires running == RunningOn(calls, e) && finished == Filter(running, EndsAt(calls))
    ensures var r := Ticked(calls, e, time);
      |r| == |calls| && forall i: nat :: i in Filter(running, NotIn(finished)) <==>
        i < |r| && r[i].engine == e && r[i].status in {Running}
  {
    hide Sel, Ticked, TickCall;
    var r := Ticked(calls, e, time);
    TickedStatus(calls, e, time);
    FilterMembers(running, EndsAt(calls));
    FilterMembers(running, NotIn(finished));
    forall i: nat | i < |calls|
      ensures i in Filter(running, NotIn(finished)) <==> r[i].engine == e && r[i].status == Running {
      TickLoopsOne(calls[i], e, time, i in running, i in finished);
    }
  }

  lemma OrderCons(calls: seq<Call>, list: seq<nat>, rest: seq<nat>)
    requires list != [] && InOrder(calls, list) && InOrder(calls, rest) && forall k: nat :: k < |rest| ==>
      rest[k] in list[1..]
    ensures InOrder(calls, [list[0]] + rest)
  {
    hide KeyLess;
    forall k: nat | k < |rest| ensures KeyLess(calls[list[0]], calls[rest[k]]) {
      var j :| 0 <= j < |list[1..]| && list[1..][j] == rest[k];
      assert list[j + 1] == rest[k];
    }
  }

  lemma {:induction false} OrderFilter(calls: seq<Call>, list: seq<nat>, keep: nat -> bool)
    requires InOrder(calls, list)
    ensures InOrder(calls, Filter(list, keep))
  {
    hide KeyLess;
    if list != [] {
      OrderPart(calls, list, 1, |list|);
      assert list[1..|list|] == list[1..];
      OrderFilter(calls, list[1..], keep);
      FilterMembers(list[1..], keep);
      var rest := Filter(list[1..], keep);
      hide InOrder;
      forall k: nat | k < |rest| ensures rest[k] in list[1..] {
        assert rest[k] in rest;
      }
      if keep(list[0]) {
        OrderCons(calls, list, rest);
      }
    }
  }

  lemma IdleFill(cfg: Config, s: Sim, e: nat)
    requires Slots(cfg, s.calls, e)
    ensures Fill(s.calls, e, cfg.batch, s.time) == s.calls
      && InOrder(s.calls, RunningOn(s.calls, e) + PrefetchedOn(s.calls, e))
  {
    hide Sel, Fill, InOrder;
    FillIdle(cfg, s.calls, e, s.time);
  }

  lemma FrozenStep(cfg: Config, w: Workload, s: Sim, e: nat)
    requires Shape(cfg, w, s) && e < cfg.engines && Slots(cfg, s.calls, e) && s.windows[e] > 0
      && RunningOn(s.calls, e) != []
    ensures ScheduleEngine(cfg, w, s, e) == s
  {
    hide Sel, Fill, Slots, ValidWorkload, ValidConfig;
    FillIdle(cfg, s.calls, e, s.time);
  }

  lemma DecideReady(cfg: Config, w: Workload, s: Sim, e: nat)
    requires Inv(cfg, w, s) && Shape(cfg, w, s) && e < cfg.engines && (s.windows[e] == 0 || RunningOn(s.calls, e) == [])
    ensures RefreshReady(cfg, w, s.calls, s.entries, e)
    ensures var refreshed, keys := Refreshed(cfg, w, s.calls, s.entries, e, s.counter),
      RefreshedKeys(cfg, w, s.calls, s.entries, e, s.counter);
      && Stamps(refreshed, keys.1)
      && ScheduleEngine(cfg, w, s, e) ==
        s.(calls := Selected(cfg, refreshed, e, s.time), counter := keys.1, windows := s.windows[e := cfg.interval])
  {
    hide Sel, Stamps, Inv, Refreshed, RefreshedKeys, Selected, Fill, Ranked, SchedulingKeeps, Placed;
    Rescheduled(cfg, w, s, e);
    ScheduleRest(cfg, w, s, e);
  }

  lemma ScheduleRest(cfg: Config, w: Workload, s: Sim, e: nat)
    requires Shape(cfg, w, s) && e < cfg.engines
    ensures ScheduleEngine(cfg, w, s, e).entries == s.entries && ScheduleEngine(cfg, w, s, e).gantt == s.gantt
      && ScheduleEngine(cfg, w, s, e).time == s.time
  {
    hide Sel, Fill, Refreshed, RefreshedKeys, Selected, ValidWorkload, ValidConfig;
  }

  lemma TickReady(cfg: Config, w: Workload, s: Sim, engines: seq<Engine>, e: nat)
    requires Midway(cfg, w, s, e) && Shape(cfg, w, s) && EnginesOk(cfg, s.calls, engines) && e < cfg.engines
    ensures e < |engines| && EngineOk(cfg, s.calls, e, engines[e]) && Stamps(s.calls, s.counter)
      && Slots(cfg, s.calls, e)
    ensures NoDup(engines[e].running)
    ensures forall i: nat :: i in engines[e].running <==>
      i < |s.calls| && s.calls[i].engine == e && s.calls[i].status == Running
    ensures NoDup(Flatten(engines[e].queues) + engines[e].prefetched)
    ensures forall i: nat :: i in Flatten(engines[e].queues) + engines[e].prefetched ==> i < |s.calls|
  {
    hide Sel, Stamps, AllBooks, AllAfterParents, AllPlaces, AllSlots, Slots, Shape, Agrees;
    SlotsAt(cfg, s.calls, e);
    var engine := engines[e];
    SelFacts(s.calls, s.counter, e, {Running});
    SelFacts(s.calls, s.counter, e, {Prefetched});
    QueueMembers(cfg, s.calls, s.counter, e, engine.queues);
    NoDupJoin(Flatten(engine.queues), engine.prefetched);
  }

  lemma CompletedLength(cfg: Config, w: Workload, calls0: seq<Call>, entries0: seq<Entry>, run: seq<nat>, time: int,
                        finished: seq<nat>, calls: seq<Call>, entries: seq<Entry>, running: seq<nat>, done: seq<Call>)
    requires |calls0| == |w.specs| == |done| && (forall i :: 0 <= i < |w.specs| ==> w.specs[i].pid < |entries0|)
    requires forall i :: i in finished ==> i < |calls0|
    requires MidComplete(cfg, w, calls0, entries0, run, time, finished, |finished|, calls, entries, running, done)
    ensures |calls| == |calls0|
  {
  }

  lemma TickedEngines(cfg: Config, w: Workload, s: Sim, engines: seq<Engine>, e: nat, finished: seq<nat>)
    requires EnginesOk(cfg, s.calls, engines) && e < cfg.engines && Stamps(s.calls, s.counter) && Slots(cfg, s.calls, e)
    requires e < |engines| && finished == Filter(engines[e].running, EndsAt(s.calls))
    ensures var r := Ticked(s.calls, e, s.time);
      && Stamps(r, s.counter) && InOrder(r, RunningOn(r, e) + PrefetchedOn(r, e))
      && EnginesOk(cfg, r, engines[e := engines[e].(running := Filter(engines[e].running, NotIn(finished)))])
  {
    hide Sel, Stamps, Slots, InOrder, Ticked, EnginesOk, EngineOk;
    EngineAt(cfg, s.calls, engines, e);
    TickedEngine(cfg, s.calls, s.counter, e, engines[e], s.time, finished);
    TickedStatus(s.calls, e, s.time);
    OneEngine(cfg, s.calls, Ticked(s.calls, e, s.time), s.counter, s.counter, engines, e,
              engines[e].(running := Filter(engines[e].running, NotIn(finished))));
  }

  lemma TickedPending(cfg: Config, w: Workload, s: Sim, e: nat)
    requires Shape(cfg, w, s) && e < cfg.engines
    ensures Shape(cfg, w, TickEngine(cfg, w, s, e)) && PendingSet(TickEngine(cfg, w, s, e).calls) == PendingSet(s.calls)
  {
    hide Shape, TickEngine;
    ShapeSizes(cfg, w, s);
    ShapeSizes(cfg, w, TickEngine(cfg, w, s, e));
    forall i: nat | i < |s.calls|
      ensures TickEngine(cfg, w, s, e).calls[i].status == Pending <==> s.calls[i].status == Pending {
      TickCallKeeps(cfg, w, s, e, i);
    }
  }

  /** An engine's three lists are empty exactly when no call lives on it. */
  lemma EmptyEngine(cfg: Config, calls: seq<Call>, counter: nat, e: nat, engine: Engine)
    requires EngineOk(cfg, calls, e, engine) && Stamps(calls, counter)
    ensures engine.running == [] && engine.prefetched == [] && Flatten(engine.queues) == [] <==> forall i ::
      0 <= i < |calls| ==> !LiveOn(calls[i], e)
    ensures engine.running != [] || engine.prefetched != [] || Flatten(engine.queues) != [] ==> exists i ::
      0 <= i < |calls| && Live(calls[i])
  {
    hide Sel, Stamps, Agrees, Flatten;
    QueueMembers(cfg, calls, counter, e, engine.queues);
    forall i: nat | i < |calls| && LiveOn(calls[i], e)
      ensures i in engine.running || i in engine.prefetched || i in Flatten(engine.queues) {
    }
    EmptyOrMember(engine.running);
    EmptyOrMember(engine.prefetched);
    EmptyOrMember(Flatten(engine.queues));
  }

  lemma NobodyLive(cfg: Config, calls: seq<Call>)
    requires AllPlaces(cfg, calls) && forall i, d: nat :: 0 <= i < |calls| && d < cfg.engines ==> !LiveOn(calls[i], d)
    ensures !exists i :: 0 <= i < |calls| && Live(calls[i])
  {
    forall i | 0 <= i < |calls| ensures !Live(calls[i]) {
      assert Placed(cfg, calls[i]);
      assert calls[i].engine < cfg.engines ==> !LiveOn(calls[i], calls[i].engine);
    }
  }

  lemma MidwayPlaces(cfg: Config, w: Workload, c: Sim)
    requires Midway(cfg, w, c, cfg.engines)
    ensures Shape(cfg, w, c) && Stamps(c.calls, c.counter) && AllPlaces(cfg, c.calls)
  {
  }

  /** The clock after a tick, as the two tests compute it. */
  lemma NextTimeIs(cfg: Config, w: Workload, c: Sim, time: int)
    requires Shape(cfg, w, c) && |c.calls| == |w.specs| && forall i :: 0 <= i < |w.specs| ==>
      w.specs[i].pid < |w.arrivals|
    ensures var next := NextRelease(cfg, w, c, |c.calls|);
      NextTime(cfg, w, c, time) ==
        if !Busy(c) && exists i: nat :: i < |c.calls| && PendingAt(c, i) && Earliest(cfg, w, c.calls, i) > time
        then (if next.Some? then Max(time, next.value) else time) else time
  {
    hide Shape, NextRelease, Earliest, Busy;
  }

  lemma ReleaseTimeless(cfg: Config, w: Workload, c: Sim, time: int, k: nat)
    requires Shape(cfg, w, c) && k <= |c.calls|
    ensures Shape(cfg, w, c.(time := time)) && NextRelease(cfg, w, c.(time := time), k) == NextRelease(cfg, w, c, k)
  {
    ShapeTimeless(cfg, w, c, time);
    hide Earliest, Shape, NextRelease;
    NextNoLater(cfg, w, c, c.(time := time), k);
    NextNoLater(cfg, w, c.(time := time), c, k);
  }

  lemma NextNoLater(cfg: Config, w: Workload, c: Sim, d: Sim, k: nat)
    requires Shape(cfg, w, c) && Shape(cfg, w, d) && d.calls == c.calls && k <= |c.calls|
    ensures var r, r' := NextRelease(cfg, w, c, k), NextRelease(cfg, w, d, k); r.Some? ==>
      r'.Some? && r'.value <= r.value
  {
    ShapeSizes(cfg, w, c);
    hide Earliest, Shape, NextRelease;
    var r := NextRelease(cfg, w, c, k);
    if r.Some? {
      var i: nat :| i < k && PendingAt(c, i) && r.value == Earliest(cfg, w, c.calls, i);
      assert PendingAt(d, i);
    }
  }

  lemma ShapeTimeless(cfg: Config, w: Workload, c: Sim, time: int)
    requires Shape(cfg, w, c)
    ensures Shape(cfg, w, c.(time := time)) && |c.calls| == |w.specs|
    ensures forall i :: 0 <= i < |w.specs| ==> w.specs[i].pid < |w.arrivals|
  {
    hide ValidWorkload, ValidConfig;
    ShapeSizes(cfg, w, c);
  }

  /** With the limit past the bound, no run is cut short. */
  lemma WithinLimit(cfg: Config, w: Workload, n: nat)
    requires ValidWorkload(w) && ValidConfig(cfg, w)
    ensures RunBound(cfg, w) <= cfg.maxTime ==> Reach(cfg, w, n).time <= RunBound(cfg, w)
  {
    hide ValidWorkload, ValidConfig, Reach, RunBound;
    if RunBound(cfg, w) <= cfg.maxTime {
      RunFinishes(cfg, w, n);
    }
  }

  /** A fill touches one engine. */
  lemma FilledEngines(cfg: Config, calls: seq<Call>, counter: nat, engines: seq<Engine>, e: nat, time: int)
    requires EnginesOk(cfg, calls, engines) && e < cfg.engines && Stamps(calls, counter)
    requires InOrder(calls, RunningOn(calls, e) + PrefetchedOn(calls, e))
    ensures e < |engines|
    ensures var r, k, engine := Fill(calls, e, cfg.batch, time), |FillList(calls, e, cfg.batch)|, engines[e];
      && k <= |engine.prefetched| && Stamps(r, counter)
      && EnginesOk(cfg, r, engines[e := engine.(running := engine.running + engine.prefetched[..k],
         prefetched := engine.prefetched[k..])])
  {
    hide Sel, Stamps, EnginesOk, EngineOk, InOrder, Fill, FillList;
    EngineAt(cfg, calls, engines, e);
    FillOk(cfg, calls, counter, e, engines[e], time);
    FillLists(cfg, calls, counter, e, time);
    var r, k, engine := Fill(calls, e, cfg.batch, time), |FillList(calls, e, cfg.batch)|, engines[e];
    forall i | 0 <= i < |calls| ensures r[i] == calls[i] || (calls[i].engine == e && r[i].engine == e) {
      if i in FillList(calls, e, cfg.batch) { assert i in PrefetchedOn(calls, e); }
    }
    OneEngine(cfg, calls, r, counter, counter, engines, e,
              engine.(running := engine.running + engine.prefetched[..k], prefetched := engine.prefetched[k..]));
  }

  lemma ReleaseSkips(cfg: Config, w: Workload, s: Sim, k: nat)
    requires Shape(cfg, w, s) && k < |s.calls|
    ensures k in PendingSet(s.calls) <==> s.calls[k].status == Pending
    ensures s.calls[k].status != Pending || Earliest(cfg, w, s.calls, k) > s.time ==> Release(cfg, w, s, k) == s
  {
    hide Shape, Earliest;
  }

  /** One admission changes one deque of one engine. */
  lemma ReleasedEngines(cfg: Config, w: Workload, s: Sim, engines: seq<Engine>, i: nat)
    requires Inv(cfg, w, s) && Shape(cfg, w, s) && s.time <= cfg.maxTime && EnginesOk(cfg, s.calls, engines)
    requires i < |s.calls| && s.calls[i].status == Pending && Earliest(cfg, w, s.calls, i) <= s.time
    ensures var c := Admitted(cfg, w, s, i);
      && Release(cfg, w, s, i) == s.(calls := s.calls[i := c], counter := s.counter + 1)
      && Shape(cfg, w, Release(cfg, w, s, i))
      && c.engine < |engines| && c.queue < |engines[c.engine].queues|
      && EnginesOk(cfg, s.calls[i := c],
         engines[c.engine := engines[c.engine].(queues := Push(engines[c.engine].queues, i, c.queue))])
      && PendingSet(s.calls[i := c]) == PendingSet(s.calls) - {i}
  {
    hide Shape, Inv, Earliest, EnginesOk, EngineOk, Stamps, Admitted, Push, Slots, AllSlots, PendingSet, Release;
    ReleaseIs(cfg, w, s, i);
    PendingLess(s.calls, i, Admitted(cfg, w, s, i));
    ShapeParts(cfg, w, s);
    InvStart(cfg, w, s);
    ReleaseSlots(cfg, w, s, i);
    var c := Admitted(cfg, w, s, i);
    AdmittedParts(cfg, w, s, i);
    EngineAt(cfg, s.calls, engines, c.engine);
    EnqueueOk(cfg, s.calls, s.counter, c.engine, engines[c.engine], i, c);
    OneEngine(cfg, s.calls, s.calls[i := c], s.counter, s.counter + 1, engines, c.engine,
              engines[c.engine].(queues := Push(engines[c.engine].queues, i, c.queue)));
  }

  lemma ReleaseIs(cfg: Config, w: Workload, s: Sim, i: nat)
    requires Shape(cfg, w, s) && i < |s.calls| && s.calls[i].status == Pending && Earliest(cfg, w, s.calls, i) <= s.time
    ensures Release(cfg, w, s, i) == s.(calls := s.calls[i := Admitted(cfg, w, s, i)], counter := s.counter + 1)
    ensures Admitted(cfg, w, s, i).status == Queued
  {
    hide Shape, Earliest;
  }

  lemma PendingLess(calls: seq<Call>, i: nat, c: Call)
    requires i < |calls| && c.status == Queued
    ensures PendingSet(calls[i := c]) == PendingSet(calls) - {i}
  {
  }

  lemma AdmittedParts(cfg: Config, w: Workload, s: Sim, i: nat)
    requires Shape(cfg, w, s) && i < |s.calls|
    ensures var c := Admitted(cfg, w, s, i);
      c.status == Queued && c.engine == cfg.prep[i].engine < cfg.engines && c.order == s.counter + 1
        && c.queue < |cfg.quanta|
  {
    hide CriticalPathService, PriorityOf, ValidWorkload;
  }

  lemma ShapeParts(cfg: Config, w: Workload, s: Sim)
    requires Shape(cfg, w, s)
    ensures |s.calls| == |w.specs| == |cfg.prep| && |s.windows| == cfg.engines && |s.entries| == |w.arrivals|
    ensures cfg.engines > 0 && cfg.batch > 0 && cfg.interval > 0 && |cfg.quanta| > 0 && |cfg.bounds| == |cfg.quanta| + 1
    ensures forall i :: 0 <= i < |w.specs| ==> w.specs[i].pid < |w.arrivals| && cfg.prep[i].engine < cfg.engines
    ensures forall i, p :: 0 <= i < |w.specs| && p in w.specs[i].parents ==> p < |s.calls|
  {
    hide Ranked;
  }
}
