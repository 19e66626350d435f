/** The Gantt chart of a run: one row per executed tick of a call, never more rows than slots. */
module SimGantt {
  import opened Sequences
  import opened Levels
  import opened SimModel
  import opened SimInvariant
  import opened SimTermination
  import opened SimSteps
  import opened SimPaths

  function RowsOf(gantt: seq<Row>, call: nat): nat {
    if gantt == [] then 0 else RowsOf(gantt[..|gantt| - 1], call) + if gantt[|gantt| - 1].call == call then 1 else 0
  }

  /** Rows of one engine at one clock reading. */
  function RowsAt(gantt: seq<Row>, time: int, e: nat): nat {
    if gantt == [] then 0
    else RowsAt(gantt[..|gantt| - 1], time, e) + if gantt[|gantt| - 1].time == time
      && gantt[|gantt| - 1].engine == e then 1 else 0
  }

  lemma {:induction false} RowsAdd(a: seq<Row>, b: seq<Row>, call: nat, time: int, e: nat)
    ensures RowsOf(a + b, call) == RowsOf(a, call) + RowsOf(b, call)
    ensures RowsAt(a + b, time, e) == RowsAt(a, time, e) + RowsAt(b, time, e)
  {
    if b == [] {
      assert a + b == a;
    } else {
      RowsAdd(a, b[..|b| - 1], call, time, e);
      assert (a + b)[..|a + b| - 1] == a + b[..|b| - 1];
    }
  }

  /** The rows of one engine tick: one for every listed call that executes. */
  lemma {:induction false} TickRows(calls: seq<Call>, e: nat, time: int, ids: seq<nat>, call: nat, at: int, d: nat)
    requires NoDup(ids) && forall i :: i in ids ==> i < |calls|
    ensures var rows := Rows(calls, e, time, ids);
      && RowsOf(rows, call) == (if call in ids && Executes(calls[call]) then 1 else 0)
      && RowsAt(rows, at, d) <= |ids| && (at != time || d != e ==> RowsAt(rows, at, d) == 0)
      && (forall k :: 0 <= k < |rows| ==> rows[k].time == time && rows[k].engine == e)
  {
    if ids != [] {
      var n := |ids| - 1;
      PopLast(ids);
      TickRows(calls, e, time, ids[..n], call, at, d);
      RowsUnfold(calls, e, time, ids);
      hide Rows, RowsOf, RowsAt, Executes;
      var front := Rows(calls, e, time, ids[..n]);
      if Executes(calls[ids[n]]) {
        OneMoreRow(front, Row(time, e, ids[n], calls[ids[n]].queue), call, at, d);
      }
    }
  }

  /** A row of the chart: the call executes in this tick, on this engine, from this level. */
  ghost predicate RowShows(calls: seq<Call>, e: nat, time: int, row: Row) {
    && row.time == time && row.engine == e && row.call < |calls| && row.queue == calls[row.call].queue
    && calls[row.call].status == Running && calls[row.call].swapLeft == 0 && calls[row.call].schedLeft == 0
  }

  lemma {:induction false} RowsShow(calls: seq<Call>, e: nat, time: int, ids: seq<nat>)
    requires forall i :: i in ids ==> i < |calls|
    ensures forall k :: 0 <= k < |Rows(calls, e, time, ids)| ==> RowShows(calls, e, time, Rows(calls, e, time, ids)[k])
  {
    if ids != [] {
      RowsUnfold(calls, e, time, ids);
      RowsShow(calls, e, time, ids[..|ids| - 1]);
      hide Rows;
    }
  }

  /** A tick of an engine adds to the chart only rows of what it executes. */
  lemma TickShows(cfg: Config, w: Workload, s: Sim, e: nat)
    requires Shape(cfg, w, s) && e < cfg.engines
    ensures var chart := TickEngine(cfg, w, s, e).gantt;
      s.gantt <= chart && forall k :: |s.gantt| <= k < |chart| ==> RowShows(s.calls, e, s.time, chart[k])
  {
    hide Shape, Ticked, Fill, Settle, Rows, Sel, RowShows;
    RowsShow(s.calls, e, s.time, RunningOn(s.calls, e));
  }

  lemma RowsUnfold(calls: seq<Call>, e: nat, time: int, ids: seq<nat>)
    requires ids != [] && forall i :: i in ids ==> i < |calls|
    ensures var n := |ids| - 1; ids[n] < |calls| && (forall i :: i in ids[..n] ==> i < |calls|)
    ensures var n := |ids| - 1; var front := Rows(calls, e, time, ids[..n]);
      Rows(calls, e, time, ids) ==
        if Executes(calls[ids[n]]) then front + [Row(time, e, ids[n], calls[ids[n]].queue)] else front
  {
    var n := |ids| - 1;
    assert ids[n] in ids && forall i :: i in ids[..n] ==> i in ids;
    hide Executes;
    var front := Rows(calls, e, time, ids[..n]);
    assert front + [] == front;
  }

  lemma OneMoreRow(rows: seq<Row>, row: Row, call: nat, at: int, d: nat)
    ensures RowsOf(rows + [row], call) == RowsOf(rows, call) + if row.call == call then 1 else 0
    ensures RowsAt(rows + [row], at, d) == RowsAt(rows, at, d) + if row.time == at && row.engine == d then 1 else 0
  {
    assert (rows + [row])[..|rows|] == rows;
  }

  /** While the engines below `k` have run the current tick. */
  ghost predicate ChartOk(cfg: Config, s: Sim, k: nat) {
    && (forall i :: 0 <= i < |s.calls| ==> RowsOf(s.gantt, i) == s.calls[i].executed)
    && (forall j :: 0 <= j < |s.gantt| ==>
       s.gantt[j].time < s.time || (s.gantt[j].time == s.time && s.gantt[j].engine < k))
    && (forall t, e :: RowsAt(s.gantt, t, e) <= cfg.batch)
  }

  lemma {:induction false} NoneYet(gantt: seq<Row>, time: int, e: nat)
    requires forall j :: 0 <= j < |gantt| ==> gantt[j].time != time || gantt[j].engine != e
    ensures RowsAt(gantt, time, e) == 0
  {
    if gantt != [] {
      NoneYet(gantt[..|gantt| - 1], time, e);
    }
  }

  lemma TickChart(cfg: Config, w: Workload, s: Sim, e: nat)
    requires Midway(cfg, w, s, e) && Shape(cfg, w, s) && e < cfg.engines && ChartOk(cfg, s, e)
    ensures ChartOk(cfg, TickEngine(cfg, w, s, e), e + 1)
  {
    hide RowsOf, RowsAt, Rows, Sel, Stamps, Midway, Shape, TickEngine;
    var r, run := TickEngine(cfg, w, s, e), RunningOn(s.calls, e);
    ShapeSizes(cfg, w, s);
    ShapeSizes(cfg, w, r);
    TickChartIs(cfg, w, s, e);
    MidwaySlots(cfg, w, s, e);
    SelFacts(s.calls, s.counter, e, {Running});
    var rows := Rows(s.calls, e, s.time, run);
    forall i | 0 <= i < |r.calls| ensures RowsOf(r.gantt, i) == r.calls[i].executed {
      RowsAdd(s.gantt, rows, i, 0, 0);
      TickRows(s.calls, e, s.time, run, i, 0, 0);
      TickCallKeeps(cfg, w, s, e, i);
    }
    forall t, d ensures RowsAt(r.gantt, t, d) <= cfg.batch {
      RowsAdd(s.gantt, rows, 0, t, d);
      TickRows(s.calls, e, s.time, run, 0, t, d);
      if t == s.time && d == e {
        NoneYet(s.gantt, t, d);
      }
    }
    TickRows(s.calls, e, s.time, run, 0, 0, 0);
  }

  lemma TickChartIs(cfg: Config, w: Workload, s: Sim, e: nat)
    requires Shape(cfg, w, s) && e < cfg.engines
    ensures var r := TickEngine(cfg, w, s, e);
      r.time == s.time && r.gantt == s.gantt + Rows(s.calls, e, s.time, RunningOn(s.calls, e))
  {
    hide Shape, Sel, Ticked, Fill, Settle, Rows;
  }

  lemma MidwaySlots(cfg: Config, w: Workload, s: Sim, e: nat)
    requires Midway(cfg, w, s, e) && e < cfg.engines
    ensures Stamps(s.calls, s.counter) && |RunningOn(s.calls, e)| <= cfg.batch
  {
    hide Stamps, AllBooks, AllAfterParents, AllPlaces, AllSlots, Sel, Shape;
    SlotsAt(cfg, s.calls, e);
  }

  lemma {:induction false} TickUpToChart(cfg: Config, w: Workload, s: Sim, k: nat)
    requires Inv(cfg, w, s) && Shape(cfg, w, s) && k <= cfg.engines && ChartOk(cfg, s, 0)
    ensures ChartOk(cfg, TickUpTo(cfg, w, s, k), k)
  {
    hide *;
    TickUnroll(cfg, w, s, k);
    if k > 0 {
      TickUpToChart(cfg, w, s, k - 1);
      TickUpToInv(cfg, w, s, k - 1);
      TickChart(cfg, w, TickUpTo(cfg, w, s, k - 1), k - 1);
    }
  }

  /** Calls whose executed ticks and chart are untouched keep the chart in order. */
  lemma ChartSame(cfg: Config, s: Sim, r: Sim, k: nat)
    requires ChartOk(cfg, s, k) && |r.calls| == |s.calls| && r.gantt == s.gantt
    requires r.time == s.time || (r.time > s.time && k == cfg.engines)
    requires forall i :: 0 <= i < |s.calls| ==> r.calls[i].executed == s.calls[i].executed
    ensures ChartOk(cfg, r, if r.time == s.time then k else 0)
  {
  }

  lemma {:induction false} ScheduleUpToExecuted(cfg: Config, w: Workload, s: Sim, k: nat)
    requires Inv(cfg, w, s) && Shape(cfg, w, s) && k <= cfg.engines
    ensures var r := ScheduleUpTo(cfg, w, s, k);
      && |r.calls| == |s.calls| && r.gantt == s.gantt && r.time == s.time
      && forall i :: 0 <= i < |s.calls| ==> r.calls[i].executed == s.calls[i].executed
  {
    hide *;
    ShapeSizes(cfg, w, s);
    ScheduleUnroll(cfg, w, s, k);
    ScheduleUpToInv(cfg, w, s, k);
    if k > 0 {
      ScheduleUpToExecuted(cfg, w, s, k - 1);
      ScheduleUpToInv(cfg, w, s, k - 1);
      var mid := ScheduleUpTo(cfg, w, s, k - 1);
      ShapeSizes(cfg, w, mid);
      InvStart(cfg, w, mid);
      ShapeSizes(cfg, w, ScheduleEngine(cfg, w, mid, k - 1));
      forall i | 0 <= i < |s.calls| ensures ScheduleUpTo(cfg, w, s, k).calls[i].executed == s.calls[i].executed {
        ScheduleKeeps(cfg, w, mid, k - 1, i);
        KeepsExecuted(mid.calls[i], ScheduleEngine(cfg, w, mid, k - 1).calls[i]);
      }
    }
  }

  lemma KeepsExecuted(c: Call, c': Call)
    requires SchedulingKeeps(c, c')
    ensures c'.executed == c.executed
  {
  }

  lemma {:induction false} ReleaseUpToExecuted(cfg: Config, w: Workload, s: Sim, k: nat)
    requires Shape(cfg, w, s) && k <= |s.calls|
    ensures var r := ReleaseUpTo(cfg, w, s, k);
      |r.calls| == |s.calls| && forall i :: 0 <= i < |s.calls| ==> r.calls[i].executed == s.calls[i].executed
  {
    hide ValidWorkload, ValidConfig, Earliest, CriticalPathService, AssignQueue, PriorityOf;
    if k > 0 {
      ReleaseUpToExecuted(cfg, w, s, k - 1);
    }
  }

  lemma StepChart(cfg: Config, w: Workload, s: Sim)
    requires Inv(cfg, w, s) && Shape(cfg, w, s) && s.time <= cfg.maxTime && ChartOk(cfg, s, 0)
    ensures ChartOk(cfg, Step(cfg, w, s), 0)
  {
    hide Inv, Shape, ChartOk, ReleaseUpTo, ScheduleUpTo, TickUpTo, NextTime, Step;
    StepResult(cfg, w, s);
    StepInv(cfg, w, s);
    ReleaseUpToInv(cfg, w, s, |s.calls|);
    ReleaseUpToCalls(cfg, w, s, |s.calls|);
    ReleaseUpToExecuted(cfg, w, s, |s.calls|);
    var a := Released(cfg, w, s);
    InvShape(cfg, w, a);
    ChartSame(cfg, s, a, 0);
    ScheduleUpToExecuted(cfg, w, a, cfg.engines);
    ScheduleUpToInv(cfg, w, a, cfg.engines);
    var b := ScheduleUpTo(cfg, w, a, cfg.engines);
    InvShape(cfg, w, b);
    ChartSame(cfg, a, b, 0);
    TickUpToChart(cfg, w, b, cfg.engines);
    TickUpToInv(cfg, w, b, cfg.engines);
    ChartSame(cfg, TickUpTo(cfg, w, b, cfg.engines), Step(cfg, w, s), cfg.engines);
  }

  lemma {:induction false} ReachChart(cfg: Config, w: Workload, n: nat)
    requires ValidWorkload(w) && ValidConfig(cfg, w)
    ensures ChartOk(cfg, Reach(cfg, w, n), 0)
  {
    hide *;
    ReachUnroll(cfg, w, n);
    if n == 0 {
      InitChart(cfg, w);
    } else {
      ReachChart(cfg, w, n - 1);
      ReachInv(cfg, w, n - 1);
      var s := Reach(cfg, w, n - 1);
      if !(AllFinished(s) || s.time > cfg.maxTime) {
        StepChart(cfg, w, s);
      }
    }
  }

  lemma InitChart(cfg: Config, w: Workload)
    requires ValidWorkload(w) && ValidConfig(cfg, w)
    ensures ChartOk(cfg, Init(cfg, w), 0)
  {
  }

  /** In every state of every run the chart holds exactly one row per executed tick of each call - so exactly the model
      time of a finished call - and no engine has more rows at one clock reading than batch slots. */
  lemma ChartIsExact(cfg: Config, w: Workload, n: nat)
    requires ValidWorkload(w) && ValidConfig(cfg, w)
    ensures var s := Reach(cfg, w, n);
      && |s.calls| == |w.specs| == |cfg.prep|
      && (forall i :: 0 <= i < |s.calls| ==> RowsOf(s.gantt, i) == s.calls[i].executed)
      && (forall i :: 0 <= i < |s.calls| && s.calls[i].status == Finished ==> RowsOf(s.gantt, i) == cfg.prep[i].model)
      && (forall t, e :: RowsAt(s.gantt, t, e) <= cfg.batch)
  {
    hide Reach, ValidWorkload, ValidConfig, AllSlots, Stamps, AllPlaces, AllAfterParents, RowsOf, RowsAt;
    ReachChart(cfg, w, n);
    ReachInv(cfg, w, n);
    ReachCosted(cfg, w, n);
    var s := Reach(cfg, w, n);
    forall i | 0 <= i < |s.calls| && s.calls[i].status == Finished ensures s.calls[i].executed == cfg.prep[i].model {
      assert Books(s.calls[i], s.time);
    }
  }
}
