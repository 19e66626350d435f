/** Who holds the slots of an engine after a scheduling boundary, in numbers and in order, and what losing a slot
    costs. */
module SimSeats {
  import opened Sequences
  import opened Levels
  import opened SimModel
  import opened SimInvariant
  import opened SimTermination
  import opened SimPolicies

  /** The calls of an engine in the given states. */
  ghost function On(calls: seq<Call>, e: nat, kinds: set<Status>): set<nat> {
    set i: nat | i < |calls| && calls[i].engine == e && calls[i].status in kinds
  }

  /** Level and stamp of `a` come before those of `b`. */
  ghost predicate Earlier(a: Call, b: Call) { a.queue < b.queue || (a.queue == b.queue && a.order < b.order) }

  /** Batch slots and then reserve slots go to the calls with the first places, as many as there are slots or calls. */
  ghost predicate SeatsFirst(cfg: Config, calls: seq<Call>, e: nat) {
    var live := |On(calls, e, {Queued, Prefetched, Running})|;
    && |On(calls, e, {Running})| == Min(cfg.batch, live)
    && |On(calls, e, {Running, Prefetched})| == Min(cfg.batch + cfg.over, live)
    && (forall i, j :: i in On(calls, e, {Running}) && j in On(calls, e, {Prefetched, Queued}) ==>
          i < |calls| && j < |calls| && Earlier(calls[i], calls[j]))
    && (forall i, j :: i in On(calls, e, {Running, Prefetched}) && j in On(calls, e, {Queued}) ==>
          i < |calls| && j < |calls| && Earlier(calls[i], calls[j]))
  }

  lemma ListedOn(calls: seq<Call>, counter: nat, e: nat, kinds: set<Status>)
    requires Stamps(calls, counter) && kinds <= LIVE
    ensures |Sel(calls, e, kinds)| == |On(calls, e, kinds)|
    ensures forall i: nat :: i in Sel(calls, e, kinds) <==> i in On(calls, e, kinds)
  {
    hide Sel, Stamps;
    SelFacts(calls, counter, e, kinds);
    var list := Sel(calls, e, kinds);
    NoDupCard(list);
    var members := set i: nat | i in list;
    assert members == On(calls, e, kinds) && |members| == |list|;
  }

  /** Slots given along the line. */
  lemma LineSeats(cfg: Config, calls: seq<Call>, counter: nat, e: nat)
    requires Stamps(calls, counter) && InOrder(calls, Line(calls, e))
    requires RunningOn(calls, e) == Line(calls, e)[..RunCount(cfg, Line(calls, e))]
    requires PrefetchedOn(calls, e) == Line(calls, e)[RunCount(cfg, Line(calls, e))..HoldCount(cfg, Line(calls, e))]
    ensures SeatsFirst(cfg, calls, e)
  {
    hide Sel, Stamps, On, Earlier, InOrder, KeyLess, RunCount, HoldCount, SeatsFirst;
    var line := Line(calls, e);
    var run, hold := RunCount(cfg, line), HoldCount(cfg, line);
    ListedOn(calls, counter, e, LIVE);
    ListedOn(calls, counter, e, {Running});
    ListedOn(calls, counter, e, {Prefetched});
    OnBoth(calls, e);
    BehindThe(line, run, hold);
    Counts(cfg, line);
    FirstEarlier(calls, line, run);
    FirstEarlier(calls, line, hold);
    SeatsAre(cfg, calls, e, line, run, hold);
  }

  lemma Counts(cfg: Config, line: seq<nat>)
    ensures RunCount(cfg, line) == Min(cfg.batch, |line|) && HoldCount(cfg, line) == Min(cfg.batch + cfg.over, |line|)
  {
  }

  lemma SeatsAre(cfg: Config, calls: seq<Call>, e: nat, line: seq<nat>, run: nat, hold: nat)
    requires run <= hold <= |line| && run == Min(cfg.batch, |line|) && hold == Min(cfg.batch + cfg.over, |line|)
    requires |line| == |On(calls, e, {Queued, Prefetched, Running})| && run == |On(calls, e, {Running})|
    requires hold == |On(calls, e, {Running, Prefetched})|
    requires forall i :: i in line <==> i in On(calls, e, {Queued, Prefetched, Running})
    requires forall i :: i in line[..run] <==> i in On(calls, e, {Running})
    requires forall i :: i in line[..hold] <==> i in On(calls, e, {Running, Prefetched})
    requires On(calls, e, {Prefetched, Queued}) == On(calls, e, {Queued, Prefetched, Running}) - On(calls, e, {Running})
    requires On(calls, e, {Queued}) == On(calls, e, {Queued, Prefetched, Running}) - On(calls, e, {Running, Prefetched})
    requires forall i, j :: i in line[..run] && j in line && j !in line[..run] ==>
      i < |calls| && j < |calls| && Earlier(calls[i], calls[j])
    requires forall i, j :: i in line[..hold] && j in line && j !in line[..hold] ==>
      i < |calls| && j < |calls| && Earlier(calls[i], calls[j])
    ensures SeatsFirst(cfg, calls, e)
  {
    hide On, Earlier;
    assert forall i :: i in On(calls, e, {Running}) ==> i in line[..run];
  }

  lemma OnBoth(calls: seq<Call>, e: nat)
    ensures On(calls, e, {Running, Prefetched}) == On(calls, e, {Running}) + On(calls, e, {Prefetched})
    ensures |On(calls, e, {Running, Prefetched})| == |On(calls, e, {Running})| + |On(calls, e, {Prefetched})|
    ensures On(calls, e, LIVE) == On(calls, e, {Queued, Prefetched, Running})
    ensures On(calls, e, {Prefetched, Queued}) == On(calls, e, LIVE) - On(calls, e, {Running})
    ensures On(calls, e, {Queued}) == On(calls, e, LIVE) - On(calls, e, {Running, Prefetched})
  {
    assert On(calls, e, {Running, Prefetched}) == On(calls, e, {Running}) + On(calls, e, {Prefetched});
  }

  lemma FirstEarlier(calls: seq<Call>, line: seq<nat>, k: nat)
    requires InOrder(calls, line) && k <= |line|
    ensures forall i, j :: i in line[..k] && j in line && j !in line[..k] ==>
      i < |calls| && j < |calls| && Earlier(calls[i], calls[j])
  {
    forall i, j | i in line[..k] && j in line && j !in line[..k]
      ensures i < |calls| && j < |calls| && Earlier(calls[i], calls[j])
    {
      var a :| 0 <= a < k && line[a] == i;
      var b :| 0 <= b < |line| && line[b] == j;
      TakenAt(line, k, b);
      assert KeyLess(calls[line[a]], calls[line[b]]);
    }
  }

  lemma BehindThe(line: seq<nat>, run: nat, hold: nat)
    requires run <= hold <= |line|
    ensures forall i :: i in line[..hold] <==> i in line[..run] || i in line[run..hold]
  {
    assert line[..hold] == line[..run] + line[run..hold];
  }

  /** At a boundary the slots of an engine go to the first places of its line, whoever held them before. */
  lemma BoundarySeats(cfg: Config, w: Workload, s: Sim, e: nat)
    requires Inv(cfg, w, s) && Shape(cfg, w, s) && e < cfg.engines && Reconsiders(s, e)
    ensures var r := ScheduleEngine(cfg, w, s, e);
      && SeatsFirst(cfg, r.calls, e) && |r.calls| == |s.calls|
      && On(r.calls, e, {Queued, Prefetched, Running}) == On(s.calls, e, {Queued, Prefetched, Running})
      && e < |s.windows| && r.windows == s.windows[e := cfg.interval]
  {
    hide Inv, Shape, ScheduleEngine, Refreshed, RefreshedKeys, Selected, Sel, Stamps, SchedulingKeeps, SeatsFirst,
      Reconsiders;
    NobodyRuns(s, e);
    ShapeSizes(cfg, w, s);
    ShapeSizes(cfg, w, ScheduleEngine(cfg, w, s, e));
    Rescheduled(cfg, w, s, e);
    var refreshed, r := Refreshed(cfg, w, s.calls, s.entries, e, s.counter), ScheduleEngine(cfg, w, s, e);
    SelectLists(cfg, refreshed, r.counter, e, s.time);
    LineSeats(cfg, r.calls, r.counter, e);
    SameLive(cfg, w, s, e);
  }

  lemma SameLive(cfg: Config, w: Workload, s: Sim, e: nat)
    requires Inv(cfg, w, s) && Shape(cfg, w, s) && e < cfg.engines && |ScheduleEngine(cfg, w, s, e).calls| == |s.calls|
    ensures On(ScheduleEngine(cfg, w, s, e).calls, e, {Queued, Prefetched, Running})
      == On(s.calls, e, {Queued, Prefetched, Running})
  {
    hide Inv, Shape, ScheduleEngine, Stamps, AllPlaces, AllSlots;
    InvStart(cfg, w, s);
    forall i: nat | i < |s.calls|
      ensures var c := ScheduleEngine(cfg, w, s, e).calls[i];
        c.engine == s.calls[i].engine && (Live(c) <==> Live(s.calls[i]))
    {
      ScheduleKeeps(cfg, w, s, e, i);
    }
  }

  // ---- What a lost slot costs --------------------------------------------------------------------

  /** The calls of the engine that held a slot before and hold none afterwards. */
  ghost function Displaced(calls: seq<Call>, calls': seq<Call>, e: nat): set<nat> {
    On(calls, e, {Running, Prefetched}) - On(calls', e, {Running, Prefetched})
  }

  /** Each displaced call owes the penalty for the number of displaced calls, and nobody else owes anything new; a call
      that runs for the first time starts at `time`. */
  ghost predicate SettlesUp(cfg: Config, calls: seq<Call>, calls': seq<Call>, e: nat, time: int)
    requires |calls'| == |calls|
  {
    var displaced := Displaced(calls, calls', e);
    forall i: nat :: i < |calls| ==>
      var fee := if i in displaced then cfg.penalty(|displaced|) else 0;
      && calls'[i].swap == calls[i].swap + fee && calls'[i].swapLeft == calls[i].swapLeft + fee
      && calls'[i].start == if calls'[i].status == Running && calls[i].start == None then Some(time) else calls[i].start
  }

  /** The selection seen from one call. */
  ghost predicate SettlesOne(cfg: Config, c: Call, r: Call, pays: bool, count: nat, time: int) {
    var fee := if pays then cfg.penalty(count) else 0;
    && r.swap == c.swap + fee && r.swapLeft == c.swapLeft + fee
    && r.start == if r.status == Running && c.start == None then Some(time) else c.start
  }

  lemma SelectedOne(cfg: Config, calls: seq<Call>, counter: nat, e: nat, time: int, i: nat)
    requires Stamps(calls, counter) && i < |calls| && (calls[i].status == Running ==> calls[i].start.Some?)
    ensures var r, victims := Selected(cfg, calls, e, time), Victims(cfg, calls, e);
      && SettlesOne(cfg, calls[i], r[i], i in victims, |victims|, time) && r[i].engine == calls[i].engine
      && (i in victims <==> Resident(calls[i]) && calls[i].engine == e && !Resident(r[i]))
  {
    hide Sel, Selected, Stamps, KeyLess, Victims, SelectedCall, InOrder, RunCount, HoldCount;
    var line, victims := Line(calls, e), Victims(cfg, calls, e);
    VictimsAreLive(cfg, calls, e);
    SelFacts(calls, counter, e, LIVE);
    BehindThe(line, RunCount(cfg, line), HoldCount(cfg, line));
    LineSplit(line, HoldCount(cfg, line));
    assert i in line <==> LiveOn(calls[i], e);
    SeatedBy(cfg, line, victims, calls[i], i, time, e);
  }

  lemma SelectedSettles(cfg: Config, calls: seq<Call>, counter: nat, e: nat, time: int)
    requires Stamps(calls, counter) && forall i :: 0 <= i < |calls| && calls[i].status == Running ==>
      calls[i].start.Some?
    ensures SettlesUp(cfg, calls, Selected(cfg, calls, e, time), e, time)
  {
    hide Sel, Selected, Stamps, Victims, SettlesOne;
    var r, victims := Selected(cfg, calls, e, time), Victims(cfg, calls, e);
    forall i: nat | i < |calls|
      ensures SettlesOne(cfg, calls[i], r[i], i in victims, |victims|, time)
      ensures i in victims <==> i in Displaced(calls, r, e)
    {
      SelectedOne(cfg, calls, counter, e, time, i);
    }
    VictimsInRange(cfg, calls, e);
    VictimCount(cfg, calls, counter, e, Displaced(calls, r, e));
    SettlesAll(cfg, calls, r, e, time);
  }

  lemma VictimsInRange(cfg: Config, calls: seq<Call>, e: nat)
    ensures forall i :: i in Victims(cfg, calls, e) ==> i < |calls|
  {
    hide Sel;
    VictimsAreLive(cfg, calls, e);
  }

  lemma SettlesAll(cfg: Config, calls: seq<Call>, r: seq<Call>, e: nat, time: int)
    requires |calls| == |r|
    requires forall i: nat :: i < |calls| ==>
      SettlesOne(cfg, calls[i], r[i], i in Displaced(calls, r, e), |Displaced(calls, r, e)|, time)
    ensures SettlesUp(cfg, calls, r, e, time)
  {
    hide Displaced;
  }

  lemma LineSplit(line: seq<nat>, hold: nat)
    requires NoDup(line) && hold <= |line|
    ensures forall i :: i in line <==> i in line[..hold] || i in line[hold..]
    ensures forall i :: i in line[hold..] ==> i !in line[..hold]
  {
    assert line == line[..hold] + line[hold..];
  }

  lemma SeatedBy(cfg: Config, line: seq<nat>, victims: seq<nat>, c: Call, i: nat, time: int, e: nat)
    requires var run, hold := RunCount(cfg, line), HoldCount(cfg, line);
      && (i in line[..hold] <==> i in line[..run] || i in line[run..hold])
      && (i in line <==> i in line[..hold] || i in line[hold..]) && (i in line[hold..] ==> i !in line[..hold])
      && (i in victims <==> i in line[hold..] && Resident(c)) && (i in line <==> LiveOn(c, e))
    requires c.status == Running ==> c.start.Some?
    ensures var r := SelectedCall(cfg, line, victims, c, i, time);
      var fee := if i in victims then cfg.penalty(|victims|) else 0;
      && (i in victims <==> Resident(c) && c.engine == e && !Resident(r)) && r.engine == c.engine
      && r.swap == c.swap + fee && r.swapLeft == c.swapLeft + fee
      && r.start == if r.status == Running && c.start == None then Some(time) else c.start
  {
  }

  lemma VictimCount(cfg: Config, calls: seq<Call>, counter: nat, e: nat, displaced: set<nat>)
    requires Stamps(calls, counter) && forall i: nat :: i in Victims(cfg, calls, e) <==> i in displaced
    ensures |Victims(cfg, calls, e)| == |displaced|
  {
    hide Sel, Stamps, InOrder;
    SelFacts(calls, counter, e, LIVE);
    var line := Line(calls, e);
    var tail, victims := line[HoldCount(cfg, line)..], Victims(cfg, calls, e);
    FilterMembers(tail, (i: nat) => i < |calls| && Resident(calls[i]));
    NoDupCard(victims);
    var members := set i: nat | i in victims;
    assert members == displaced;
  }

  /** At a boundary exactly the displaced calls pay, each the penalty for all of them. */
  lemma BoundaryCosts(cfg: Config, w: Workload, s: Sim, e: nat)
    requires Inv(cfg, w, s) && Shape(cfg, w, s) && e < cfg.engines && Reconsiders(s, e)
    ensures |ScheduleEngine(cfg, w, s, e).calls| == |s.calls|
    ensures SettlesUp(cfg, s.calls, ScheduleEngine(cfg, w, s, e).calls, e, s.time)
  {
    hide Inv, Shape, ScheduleEngine, Refreshed, RefreshedKeys, Selected, Sel, Stamps, SettlesUp, Reconsiders;
    NobodyRuns(s, e);
    ShapeSizes(cfg, w, s);
    ShapeSizes(cfg, w, ScheduleEngine(cfg, w, s, e));
    InvStart(cfg, w, s);
    Rescheduled(cfg, w, s, e);
    var refreshed, r := Refreshed(cfg, w, s.calls, s.entries, e, s.counter), ScheduleEngine(cfg, w, s, e);
    forall i | 0 <= i < |s.calls|
      ensures refreshed[i].status == s.calls[i].status && refreshed[i].engine == s.calls[i].engine
      ensures refreshed[i].swap == s.calls[i].swap && refreshed[i].swapLeft == s.calls[i].swapLeft
      ensures refreshed[i].start == s.calls[i].start
    {
      RefreshedSame(cfg, w, s, e, i);
    }
    SelectedSettles(cfg, refreshed, r.counter, e, s.time);
    SettlesSame(cfg, s.calls, refreshed, r.calls, e, s.time);
  }

  lemma RefreshedSame(cfg: Config, w: Workload, s: Sim, e: nat, i: nat)
    requires Shape(cfg, w, s) && e < cfg.engines && i < |s.calls|
    ensures |cfg.quanta| > 0 && |s.calls| == |w.specs| && forall j :: 0 <= j < |w.specs| ==>
      w.specs[j].pid < |s.entries|
    ensures var r := Refreshed(cfg, w, s.calls, s.entries, e, s.counter)[i];
      && r.status == s.calls[i].status && r.engine == s.calls[i].engine && r.start == s.calls[i].start
      && r.swap == s.calls[i].swap && r.swapLeft == s.calls[i].swapLeft
  {
    hide Refreshed, RefreshedKeys, HopsOf, Promoted;
  }

  lemma SettlesSame(cfg: Config, calls: seq<Call>, refreshed: seq<Call>, calls': seq<Call>, e: nat, time: int)
    requires |calls| == |refreshed| == |calls'| && SettlesUp(cfg, refreshed, calls', e, time)
    requires forall i :: 0 <= i < |calls| ==>
      && refreshed[i].status == calls[i].status && refreshed[i].engine == calls[i].engine
      && refreshed[i].swap == calls[i].swap && refreshed[i].swapLeft == calls[i].swapLeft
      && refreshed[i].start == calls[i].start
    ensures SettlesUp(cfg, calls, calls', e, time)
  {
    assert On(refreshed, e, {Running, Prefetched}) == On(calls, e, {Running, Prefetched});
  }

  /** Some call of the engine executes in this tick: it runs, and owes neither swap nor scheduler ticks. */
  ghost predicate SomeExecutes(calls: seq<Call>, e: nat) {
    exists i :: 0 <= i < |calls| && calls[i].engine == e && calls[i].status == Running
                && calls[i].swapLeft == 0 && calls[i].schedLeft == 0
  }

  lemma ExecutesMeans(calls: seq<Call>, e: nat)
    ensures AnyExecutes(calls, e) <==> SomeExecutes(calls, e)
  {
  }

  /** A tick uses up one step of the window of its engine if some call executes, and otherwise none. */
  lemma TickWindow(cfg: Config, w: Workload, s: Sim, e: nat)
    requires Shape(cfg, w, s) && e < cfg.engines
    ensures e < |s.windows|
    ensures TickEngine(cfg, w, s, e).windows ==
      s.windows[e := if SomeExecutes(s.calls, e) && s.windows[e] > 0 then s.windows[e] - 1 else s.windows[e]]
  {
    hide Ticked, Fill, Settle, Rows, Sel, ValidWorkload, ValidConfig, AnyExecutes, SomeExecutes;
    ExecutesMeans(s.calls, e);
  }
}
