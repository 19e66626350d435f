/** Every run of the simulator finishes, and by a time that can be computed from the workload.
 *
 *  Each model tick still to be executed is charged one tick plus the price of the preemption
 *  it may cause later: a scheduling window shrinks only when its engine executes, so no new
 *  swap penalty appears without progress. The resulting budget falls on every busy tick.
 */
module SimTermination {
  import opened Sequences
  import opened Levels
  import opened SimModel
  import opened SimInvariant

  /** The largest total penalty one scheduling decision can charge with at most `k` victims. */
  function PenaltyBound(penalty: nat -> nat, k: nat): (c: nat)
    ensures forall v: nat :: 1 <= v <= k ==> v * penalty(v) <= c
  {
    if k == 0 then 0
    else
      var rest, mine := PenaltyBound(penalty, k - 1), k * penalty(k);
      if rest <= mine then mine else rest
  }

  function Price(cfg: Config): nat { PenaltyBound(cfg.penalty, cfg.batch + cfg.over) }

  /** What one call may still cost. */
  function CallBudget(price: nat, c: Call, prep: Prep): int {
    match c.status
    case Pending => prep.sched + (1 + price) * prep.model
    case Finished => 0
    case _ => c.swapLeft + c.schedLeft + (1 + price) * c.remaining
  }

  /** An engine owes a penalty while its window has run out under running calls. */
  function EngineBudget(price: nat, s: Sim, e: nat): int
    requires e < |s.windows|
  {
    if s.windows[e] == 0 && RunningOn(s.calls, e) != [] then price else 0
  }

  ghost function CallBudgets(cfg: Config, calls: seq<Call>): (r: seq<int>)
    requires |cfg.prep| == |calls|
    ensures |r| == |calls| && forall i :: 0 <= i < |calls| ==> r[i] == CallBudget(Price(cfg), calls[i], cfg.prep[i])
  {
    seq(|calls|, i requires 0 <= i < |calls| => CallBudget(Price(cfg), calls[i], cfg.prep[i]))
  }

  ghost function EngineBudgets(cfg: Config, s: Sim): (r: seq<int>)
    ensures |r| == |s.windows| && forall e :: 0 <= e < |s.windows| ==> r[e] == EngineBudget(Price(cfg), s, e)
  {
    seq(|s.windows|, e requires 0 <= e < |s.windows| => EngineBudget(Price(cfg), s, e))
  }

  ghost function Budget(cfg: Config, s: Sim): int
    requires |cfg.prep| == |s.calls|
  {
    Sum(CallBudgets(cfg, s.calls)) + Sum(EngineBudgets(cfg, s))
  }

  lemma BudgetNonNegative(cfg: Config, w: Workload, s: Sim, k: nat)
    requires Midway(cfg, w, s, k)
    ensures Budget(cfg, s) >= 0
  {
    hide AllSlots, Slots, Stamps, AllAfterParents, Sel;
    forall i | 0 <= i < |s.calls| ensures CallBudgets(cfg, s.calls)[i] >= 0 {
      assert Books(s.calls[i], if s.calls[i].engine < k then s.time + 1 else s.time);
    }
    SumNonNegative(CallBudgets(cfg, s.calls));
    SumNonNegative(EngineBudgets(cfg, s));
  }

  // ---- Release -------------------------------------------------------------------

  /** Releasing a call neither raises nor lowers the budget. */
  lemma ReleaseBudget(cfg: Config, w: Workload, s: Sim, i: nat)
    requires Inv(cfg, w, s) && i < |s.calls| && s.time <= cfg.maxTime
    ensures Budget(cfg, Release(cfg, w, s, i)) == Budget(cfg, s)
  {
    hide AllSlots, Slots, Sel, AllAfterParents, Earliest, ValidWorkload;
    var r := Release(cfg, w, s, i);
    if r != s {
      assert Books(s.calls[i], s.time);
      ReleaseSlots(cfg, w, s, i);
      forall e | 0 <= e < |s.windows| ensures EngineBudget(Price(cfg), r, e) == EngineBudget(Price(cfg), s, e) {
        SelSame(s.calls, r.calls, s.counter, r.counter, e, {Running});
      }
      assert EngineBudgets(cfg, r) == EngineBudgets(cfg, s);
      assert CallBudgets(cfg, r.calls) == CallBudgets(cfg, s.calls);
    }
  }

  lemma {:induction false} ReleaseUpToBudget(cfg: Config, w: Workload, s: Sim, k: nat)
    requires Inv(cfg, w, s) && k <= |s.calls| && s.time <= cfg.maxTime
    ensures Budget(cfg, ReleaseUpTo(cfg, w, s, k)) == Budget(cfg, s)
  {
    hide *;
    InvShape(cfg, w, s);
    ReleaseUnroll(cfg, w, s, k);
    if k > 0 {
      ReleaseUpToBudget(cfg, w, s, k - 1);
      ReleaseUpToInv(cfg, w, s, k - 1);
      InvShape(cfg, w, ReleaseUpTo(cfg, w, s, k - 1));
      ShapeSizes(cfg, w, s);
      ShapeSizes(cfg, w, ReleaseUpTo(cfg, w, s, k - 1));
      ReleaseBudget(cfg, w, ReleaseUpTo(cfg, w, s, k - 1), k - 1);
    }
  }

  lemma ReleaseUnroll(cfg: Config, w: Workload, s: Sim, k: nat)
    requires Shape(cfg, w, s) && k <= |s.calls|
    ensures ReleaseUpTo(cfg, w, s, k) == if k == 0 then s else Release(cfg, w, ReleaseUpTo(cfg, w, s, k - 1), k - 1)
  {
    hide Shape, Release;
  }

  // ---- Schedule ------------------------------------------------------------------

  /** A scheduling decision on engine `e`: refresh, then selection. */
  lemma Rescheduled(cfg: Config, w: Workload, s: Sim, e: nat)
    requires Inv(cfg, w, s) && e < cfg.engines
    requires s.windows[e] == 0 || RunningOn(s.calls, e) == []
    ensures Shape(cfg, w, s)
    ensures var refreshed := Refreshed(cfg, w, s.calls, s.entries, e, s.counter);
      var r := ScheduleEngine(cfg, w, s, e);
      && r.calls == Selected(cfg, refreshed, e, s.time)
      && r.windows == s.windows[e := cfg.interval]
      && r.counter == RefreshedKeys(cfg, w, s.calls, s.entries, e, s.counter).1
      && Stamps(refreshed, r.counter)
      && (forall i :: 0 <= i < |s.calls| ==>
            SchedulingKeeps(s.calls[i], refreshed[i]) && refreshed[i].status == s.calls[i].status
              && Placed(cfg, refreshed[i])
            && refreshed[i].swap == s.calls[i].swap && refreshed[i].swapLeft == s.calls[i].swapLeft
            && (!LiveOn(s.calls[i], e) ==> refreshed[i] == s.calls[i]))
  {
    hide Fill, Refreshed, Selected, RefreshedKeys, Sel, ValidConfig, ValidWorkload, Stamps, SchedulingKeeps;
    SlotsAt(cfg, s.calls, e);
    FillIdle(cfg, s.calls, e, s.time);
    RefreshStart(cfg, w, s, e);
    RefreshStamps(cfg, w, s.calls, s.entries, e, s.counter);
    BooksStart(s.calls, s.time, 0);
    forall i | 0 <= i < |s.calls|
      ensures var c := Refreshed(cfg, w, s.calls, s.entries, e, s.counter)[i];
        && SchedulingKeeps(s.calls[i], c) && c.status == s.calls[i].status && Placed(cfg, c)
        && c.swap == s.calls[i].swap && c.swapLeft == s.calls[i].swapLeft
        && (!LiveOn(s.calls[i], e) ==> c == s.calls[i])
    {
      RefreshKeeps(cfg, w, s.calls, s.entries, e, s.counter, i);
      RefreshSwap(cfg, w, s.calls, s.entries, e, s.counter, i);
    }
  }

  lemma RefreshSwap(cfg: Config, w: Workload, calls: seq<Call>, entries: seq<Entry>, e: nat, counter: nat, i: nat)
    requires |cfg.quanta| > 0 && |calls| == |w.specs| && i < |calls|
    requires forall i :: 0 <= i < |w.specs| ==> w.specs[i].pid < |entries|
    ensures var c := Refreshed(cfg, w, calls, entries, e, counter)[i];
      c.swap == calls[i].swap && c.swapLeft == calls[i].swapLeft
  {
    hide Refreshed, RefreshedKeys, HopsOf, Promoted;
  }

  /** The victims of one decision were all resident, so there are few of them and their engine was running. */
  lemma VictimsBound(cfg: Config, calls: seq<Call>, refreshed: seq<Call>, counter: nat, counter': nat, e: nat)
    requires Stamps(calls, counter) && Stamps(refreshed, counter') && Slots(cfg, calls, e) && cfg.batch > 0
    requires |refreshed| == |calls|
    requires forall i :: 0 <= i < |calls| ==>
      refreshed[i].status == calls[i].status && refreshed[i].engine == calls[i].engine
    ensures var victims := Victims(cfg, refreshed, e);
      && NoDup(victims) && (forall i :: i in victims ==> i < |calls|)
      && |victims| <= cfg.batch + cfg.over
      && (victims != [] ==> RunningOn(calls, e) != [])
  {
    hide Sel, Victims, KeyLess, Stamps;
    var victims, run, pre := Victims(cfg, refreshed, e), RunningOn(calls, e), PrefetchedOn(calls, e);
    VictimsAreLive(cfg, refreshed, e);
    SelFacts(refreshed, counter', e, LIVE);
    SelFacts(calls, counter, e, {Running});
    SelFacts(calls, counter, e, {Prefetched});
    VictimsNoDup(cfg, refreshed, e);
    assert NoDup(run + pre);
    forall i | i in victims ensures i in run + pre {
    }
    NoDupSubLength(victims, run + pre);
  }

  lemma VictimsNoDup(cfg: Config, calls: seq<Call>, e: nat)
    requires NoDup(Line(calls, e))
    ensures NoDup(Victims(cfg, calls, e))
  {
    hide Sel;
    FilterMembers(Line(calls, e)[HoldCount(cfg, Line(calls, e))..], (i: nat) => i < |calls| && Resident(calls[i]));
  }

  lemma SelectBudget(cfg: Config, calls: seq<Call>, counter: nat, e: nat, time: int)
    requires Stamps(calls, counter) && |cfg.prep| == |calls|
    requires var victims := Victims(cfg, calls, e);
      NoDup(victims) && (forall i :: i in victims ==> i < |calls|) && |victims| <= cfg.batch + cfg.over
    ensures Sum(CallBudgets(cfg, Selected(cfg, calls, e, time)))
         <= Sum(CallBudgets(cfg, calls)) + if Victims(cfg, calls, e) == [] then 0 else Price(cfg)
  {
    hide Sel, Selected, Stamps, Victims, Price;
    var victims, r := Victims(cfg, calls, e), Selected(cfg, calls, e, time);
    var cost := if victims == [] then 0 else cfg.penalty(|victims|);
    VictimsAreLive(cfg, calls, e);
    forall i | 0 <= i < |calls|
      ensures CallBudgets(cfg, r)[i] <= CallBudgets(cfg, calls)[i] + if i in victims then cost else 0
    {
      SelectOne(cfg, calls, e, time, i);
    }
    SumRaise(CallBudgets(cfg, calls), CallBudgets(cfg, r), victims, cost);
    PriceCovers(cfg, |victims|);
  }

  lemma SelectOne(cfg: Config, calls: seq<Call>, e: nat, time: int, i: nat)
    requires i < |calls| == |cfg.prep|
    ensures var victims := Victims(cfg, calls, e);
      CallBudget(Price(cfg), Selected(cfg, calls, e, time)[i], cfg.prep[i])
        <= CallBudget(Price(cfg), calls[i], cfg.prep[i]) + if i in victims then cfg.penalty(|victims|) else 0
  {
    hide Sel, Selected, Victims, Price;
    VictimsAreLive(cfg, calls, e);
    var line := Line(calls, e);
    assert i in line[..RunCount(cfg, line)] || i in line[RunCount(cfg, line)..HoldCount(cfg, line)] ==> i in line;
  }

  lemma PriceCovers(cfg: Config, v: nat)
    requires v <= cfg.batch + cfg.over
    ensures v > 0 ==> v * cfg.penalty(v) <= Price(cfg)
  {
  }

  /** Scheduling one engine never raises the budget, and leaves the engine running under an open window if anything is
      live on it. */
  lemma ScheduleBudget(cfg: Config, w: Workload, s: Sim, e: nat)
    requires Inv(cfg, w, s) && e < cfg.engines && |cfg.prep| == |s.calls|
    ensures var r := ScheduleEngine(cfg, w, s, e);
      |r.calls| == |s.calls| && Budget(cfg, r) <= Budget(cfg, s)
  {
    hide Fill, Refreshed, Selected, RefreshedKeys, Sel, ValidConfig, ValidWorkload, Stamps, SchedulingKeeps, Price,
      Slots, AllSlots,
      AllBooks, AllAfterParents, Victims;
    var r := ScheduleEngine(cfg, w, s, e);
    SlotsAt(cfg, s.calls, e);
    FillIdle(cfg, s.calls, e, s.time);
    ShapeSizes(cfg, w, s);
    if s.windows[e] == 0 || RunningOn(s.calls, e) == [] {
      Rescheduled(cfg, w, s, e);
      RescheduleBudget(cfg, w, s, e);
    }
  }

  lemma RefreshedBudgets(cfg: Config, calls: seq<Call>, refreshed: seq<Call>)
    requires |cfg.prep| == |calls| == |refreshed|
    requires forall i :: 0 <= i < |calls| ==>
      SchedulingKeeps(calls[i], refreshed[i]) && refreshed[i].status == calls[i].status
        && refreshed[i].swapLeft == calls[i].swapLeft
    ensures CallBudgets(cfg, refreshed) == CallBudgets(cfg, calls)
  {
    hide Price;
    forall i | 0 <= i < |calls| ensures CallBudgets(cfg, refreshed)[i] == CallBudgets(cfg, calls)[i] {
      assert SchedulingKeeps(calls[i], refreshed[i]);
    }
  }

  lemma KeepsEngine(calls: seq<Call>, refreshed: seq<Call>)
    requires |calls| == |refreshed|
    requires forall i :: 0 <= i < |calls| ==> SchedulingKeeps(calls[i], refreshed[i])
    ensures forall i :: 0 <= i < |calls| ==> refreshed[i].engine == calls[i].engine
  {
    forall i | 0 <= i < |calls| ensures refreshed[i].engine == calls[i].engine {
      assert SchedulingKeeps(calls[i], refreshed[i]);
    }
  }

  lemma RescheduleBudget(cfg: Config, w: Workload, s: Sim, e: nat)
    requires Inv(cfg, w, s) && e < cfg.engines && |cfg.prep| == |s.calls|
    requires s.windows[e] == 0 || RunningOn(s.calls, e) == []
    ensures Budget(cfg, ScheduleEngine(cfg, w, s, e)) <= Budget(cfg, s)
  {
    hide ScheduleEngine, Refreshed, Selected, RefreshedKeys, Sel, ValidConfig, ValidWorkload, Stamps, Price, Slots,
      AllSlots,
      AllBooks, AllAfterParents, Victims, SchedulingKeeps, CallBudget, LiveOn, Placed, Live;
    RefreshStart(cfg, w, s, e);
    var r, refreshed := ScheduleEngine(cfg, w, s, e), Refreshed(cfg, w, s.calls, s.entries, e, s.counter);
    Rescheduled(cfg, w, s, e);
    ShapeSizes(cfg, w, s);
    SlotsAt(cfg, s.calls, e);
    KeepsEngine(s.calls, refreshed);
    VictimsBound(cfg, s.calls, refreshed, s.counter, r.counter, e);
    SelectBudget(cfg, refreshed, r.counter, e, s.time);
    RefreshedBudgets(cfg, s.calls, refreshed);
    forall d | 0 <= d < cfg.engines && d != e ensures EngineBudget(Price(cfg), r, d) == EngineBudget(Price(cfg), s, d) {
      ScheduleOther(cfg, w, s, e, d);
    }
    assert EngineBudgets(cfg, r) == EngineBudgets(cfg, s)[e := 0];
    SumUpdate(EngineBudgets(cfg, s), e, 0);
  }

  lemma ScheduleOther(cfg: Config, w: Workload, s: Sim, e: nat, d: nat)
    requires Inv(cfg, w, s) && e < cfg.engines && d < cfg.engines && d != e
    ensures var r := ScheduleEngine(cfg, w, s, e);
      RunningOn(r.calls, d) == RunningOn(s.calls, d) && r.windows[d] == s.windows[d]
  {
    hide Fill, Refreshed, Selected, RefreshedKeys, Sel, ValidConfig, ValidWorkload, Stamps, Slots, AllSlots;
    BooksStart(s.calls, s.time, 0);
    ScheduleSlots(cfg, w, s, e);
    OtherSlots(cfg, w, s, e, d);
  }

  /** An engine with live calls is running them under an open window. */
  ghost predicate Served(s: Sim, e: nat)
    requires e < |s.windows|
  {
    (exists i :: 0 <= i < |s.calls| && LiveOn(s.calls[i], e)) ==> RunningOn(s.calls, e) != [] && s.windows[e] > 0
  }

  lemma ScheduleServes(cfg: Config, w: Workload, s: Sim, e: nat)
    requires Inv(cfg, w, s) && e < cfg.engines && |s.windows| == cfg.engines
    ensures Served(ScheduleEngine(cfg, w, s, e), e)
    ensures forall d :: 0 <= d < cfg.engines && d != e && Served(s, d) ==> Served(ScheduleEngine(cfg, w, s, e), d)
  {
    hide Fill, Refreshed, Selected, RefreshedKeys, Sel, ValidConfig, ValidWorkload, Stamps, Slots, AllSlots,
      SchedulingKeeps, Served;
    var r := ScheduleEngine(cfg, w, s, e);
    SlotsAt(cfg, s.calls, e);
    FillIdle(cfg, s.calls, e, s.time);
    ShapeSizes(cfg, w, s);
    if s.windows[e] == 0 || RunningOn(s.calls, e) == [] {
      Rescheduled(cfg, w, s, e);
      var refreshed := Refreshed(cfg, w, s.calls, s.entries, e, s.counter);
      SelectLists(cfg, refreshed, r.counter, e, s.time);
      assert Line(r.calls, e) != [] ==> RunningOn(r.calls, e) != [];
      LineServed(r, e);
    } else {
      LineServed(r, e);
    }
    forall d | 0 <= d < cfg.engines && d != e && Served(s, d) ensures Served(r, d) {
      ScheduleOther(cfg, w, s, e, d);
      ScheduleKeepsLive(cfg, w, s, e);
      ServedSame(s, r, d);
    }
  }

  lemma LineServed(s: Sim, e: nat)
    requires e < |s.windows| && s.windows[e] > 0
    requires Line(s.calls, e) != [] ==> RunningOn(s.calls, e) != []
    ensures Served(s, e)
  {
    hide Sel;
    if i :| 0 <= i < |s.calls| && LiveOn(s.calls[i], e) {
      assert i in Line(s.calls, e);
    }
  }

  lemma ServedSame(s: Sim, r: Sim, d: nat)
    requires d < |s.windows| == |r.windows| && |s.calls| == |r.calls|
    requires RunningOn(r.calls, d) == RunningOn(s.calls, d) && r.windows[d] == s.windows[d]
    requires forall i :: 0 <= i < |s.calls| && LiveOn(r.calls[i], d) ==> LiveOn(s.calls[i], d)
    ensures Served(s, d) ==> Served(r, d)
  {
    hide Sel;
  }

  lemma ScheduleKeepsLive(cfg: Config, w: Workload, s: Sim, e: nat)
    requires Inv(cfg, w, s) && e < cfg.engines
    ensures var r := ScheduleEngine(cfg, w, s, e);
      |r.calls| == |s.calls| && forall i, d :: 0 <= i < |s.calls| ==> (LiveOn(r.calls[i], d) <==> LiveOn(s.calls[i], d))
  {
    hide ScheduleEngine, Stamps, Slots, AllSlots, Sel, ValidConfig, ValidWorkload;
    BooksStart(s.calls, s.time, 0);
    forall i, d | 0 <= i < |s.calls|
      ensures var r := ScheduleEngine(cfg, w, s, e); LiveOn(r.calls[i], d) <==> LiveOn(s.calls[i], d)
    {
      ScheduleKeeps(cfg, w, s, e, i);
    }
  }

  lemma {:induction false} ScheduleUpToBudget(cfg: Config, w: Workload, s: Sim, k: nat)
    requires Inv(cfg, w, s) && k <= cfg.engines
    ensures var r := ScheduleUpTo(cfg, w, s, k);
      && |cfg.prep| == |r.calls| == |s.calls| && |r.windows| == cfg.engines
      && Budget(cfg, r) <= Budget(cfg, s)
      && (forall e :: 0 <= e < k ==> Served(r, e))
      && (forall i, d :: 0 <= i < |s.calls| ==> (LiveOn(r.calls[i], d) <==> LiveOn(s.calls[i], d)))
  {
    hide *;
    InvShape(cfg, w, s);
    ShapeSizes(cfg, w, s);
    ScheduleUnroll(cfg, w, s, k);
    if k > 0 {
      ScheduleUpToBudget(cfg, w, s, k - 1);
      ScheduleUpToInv(cfg, w, s, k - 1);
      var mid := ScheduleUpTo(cfg, w, s, k - 1);
      InvShape(cfg, w, mid);
      ShapeSizes(cfg, w, mid);
      ScheduleBudget(cfg, w, mid, k - 1);
      ScheduleServes(cfg, w, mid, k - 1);
      ShapeSizes(cfg, w, ScheduleUpTo(cfg, w, s, k));
      ScheduleKeepsLive(cfg, w, mid, k - 1);
    }
  }

  // ---- Execute -------------------------------------------------------------------

  lemma OneTickCheaper(price: nat, remaining: int)
    ensures (1 + price) * (remaining - 1) == (1 + price) * remaining - (1 + price)
  {
  }

  /** A running call gets cheaper by one tick, or by a whole model tick when it executes; nobody gets dearer. */
  lemma TickOne(cfg: Config, w: Workload, s: Sim, e: nat, i: nat)
    requires Midway(cfg, w, s, e) && e < cfg.engines && i < |s.calls| == |cfg.prep|
    ensures var r, price := TickEngine(cfg, w, s, e), Price(cfg);
      var was, now := CallBudget(price, s.calls[i], cfg.prep[i]), CallBudget(price, r.calls[i], cfg.prep[i]);
      && now <= was
      && (LiveOn(s.calls[i], e) && s.calls[i].status == Running ==> now <= was - 1)
      && (LiveOn(s.calls[i], e) && Executes(s.calls[i]) ==> now <= was - 1 - price)
  {
    hide TickEngine, Sel, Price, Stamps, AllSlots, ValidConfig, ValidWorkload, AllAfterParents;
    TickCallKeeps(cfg, w, s, e, i);
    assert Books(s.calls[i], if s.calls[i].engine < e then s.time + 1 else s.time);
    OneTickCheaper(Price(cfg), s.calls[i].remaining);
  }

  /** A served engine with live calls lowers the budget by at least one in every tick. */
  lemma TickBudget(cfg: Config, w: Workload, s: Sim, e: nat)
    requires Midway(cfg, w, s, e) && e < cfg.engines && |s.calls| == |cfg.prep| && |s.windows| == cfg.engines
    requires Served(s, e)
    ensures var r := TickEngine(cfg, w, s, e);
      && |r.calls| == |s.calls|
      && Budget(cfg, r) <= Budget(cfg, s)
      && (RunningOn(s.calls, e) != [] ==> Budget(cfg, r) <= Budget(cfg, s) - 1)
  {
    hide Sel, Price, Stamps, AllSlots, ValidConfig, ValidWorkload, AllAfterParents, AllBooks, AllPlaces, Ticked, Fill,
      Settle, Rows, Executes;
    var r, price := TickEngine(cfg, w, s, e), Price(cfg);
    var was, now := CallBudgets(cfg, s.calls), CallBudgets(cfg, r.calls);
    forall i | 0 <= i < |s.calls|
      ensures && now[i] <= was[i]
              && (LiveOn(s.calls[i], e) && s.calls[i].status == Running ==> now[i] <= was[i] - 1)
              && (LiveOn(s.calls[i], e) && Executes(s.calls[i]) ==> now[i] <= was[i] - 1 - price)
    {
      TickOne(cfg, w, s, e, i);
    }
    TickEngineBudgets(cfg, w, s, e);
    hide TickEngine, EngineBudgets, CallBudget, Midway, Served;
    TickSums(s.calls, e, price, was, now);
  }

  /** A tick pays for the penalty that its work may cause. */
  lemma TickSums(calls: seq<Call>, e: nat, price: nat, was: seq<int>, now: seq<int>)
    requires |was| == |now| == |calls|
    requires forall i :: 0 <= i < |calls| ==>
      && now[i] <= was[i]
      && (LiveOn(calls[i], e) && calls[i].status == Running ==> now[i] <= was[i] - 1)
      && (LiveOn(calls[i], e) && Executes(calls[i]) ==> now[i] <= was[i] - 1 - price)
    ensures Sum(now) <= Sum(was)
    ensures AnyExecutes(calls, e) ==> Sum(now) <= Sum(was) - 1 - price
    ensures RunningOn(calls, e) != [] ==> Sum(now) <= Sum(was) - 1
  {
    hide Executes, Sel, Sum;
    SumMonotone(now, was);
    if AnyExecutes(calls, e) {
      var i :| 0 <= i < |calls| && calls[i].engine == e && Executes(calls[i]);
      ExecutesIsLive(calls[i]);
      SumDrops(was, now, i, 1 + price);
    }
    if RunningOn(calls, e) != [] {
      var i := RunningOn(calls, e)[0];
      assert i in RunningOn(calls, e);
      SumDrops(was, now, i, 1);
    }
  }

  lemma SumDrops(was: seq<int>, now: seq<int>, i: nat, drop: int)
    requires i < |was| == |now| && now[i] <= was[i] - drop && forall j :: 0 <= j < |was| ==> now[j] <= was[j]
    ensures Sum(now) <= Sum(was) - drop
  {
    hide Sum;
    SumMonotone(now, was[i := was[i] - drop]);
    SumUpdate(was, i, was[i] - drop);
  }

  lemma ExecutesIsLive(c: Call)
    requires Executes(c)
    ensures Live(c) && c.status == Running
  {
  }

  lemma TickEngineBudgets(cfg: Config, w: Workload, s: Sim, e: nat)
    requires Midway(cfg, w, s, e) && e < cfg.engines && |s.windows| == cfg.engines && Served(s, e)
    ensures var r := TickEngine(cfg, w, s, e);
      Sum(EngineBudgets(cfg, r)) <= Sum(EngineBudgets(cfg, s)) + if AnyExecutes(s.calls, e) then Price(cfg) else 0
  {
    hide Sel, Price, Stamps, AllSlots, Slots, ValidConfig, ValidWorkload, AllAfterParents, AllBooks, AllPlaces, Ticked,
      Fill, Settle, Rows, Executes;
    var r := TickEngine(cfg, w, s, e);
    TickSlots(cfg, w, s, e);
    forall d | 0 <= d < cfg.engines && d != e ensures EngineBudgets(cfg, r)[d] == EngineBudgets(cfg, s)[d] {
      TickOthers(cfg, w, s, e, d);
      SlotsAt(cfg, s.calls, d);
      SlotsSame(cfg, s.calls, r.calls, s.counter, s.counter, d);
    }
    NoRunNoExecution(s, e);
    var bill := EngineBudgets(cfg, s)[e] + if AnyExecutes(s.calls, e) then Price(cfg) else 0;
    TickRunning(cfg, w, s, e);
    assert EngineBudgets(cfg, r)[e] <= bill;
    SumMonotone(EngineBudgets(cfg, r), EngineBudgets(cfg, s)[e := bill]);
    SumUpdate(EngineBudgets(cfg, s), e, bill);
  }

  lemma NoRunNoExecution(s: Sim, e: nat)
    ensures AnyExecutes(s.calls, e) ==> RunningOn(s.calls, e) != []
  {
    hide Sel;
    if AnyExecutes(s.calls, e) {
      var i :| 0 <= i < |s.calls| && s.calls[i].engine == e && Executes(s.calls[i]);
      assert i in RunningOn(s.calls, e);
    }
  }

  /** Nobody runs after a tick on an engine without live calls. */
  lemma TickRunning(cfg: Config, w: Workload, s: Sim, e: nat)
    requires Shape(cfg, w, s) && e < cfg.engines
    ensures RunningOn(TickEngine(cfg, w, s, e).calls, e) != [] ==> exists i ::
      0 <= i < |s.calls| && LiveOn(s.calls[i], e)
  {
    hide Sel, Ticked, Fill, Settle, Rows, ValidConfig, ValidWorkload, TickEngine;
    var r := TickEngine(cfg, w, s, e);
    if RunningOn(r.calls, e) != [] {
      var i := RunningOn(r.calls, e)[0];
      assert i in RunningOn(r.calls, e);
      TickCallKeeps(cfg, w, s, e, i);
      assert LiveOn(s.calls[i], e);
    }
  }

  lemma TickKeepsOthers(cfg: Config, w: Workload, s: Sim, e: nat)
    requires Midway(cfg, w, s, e) && e < cfg.engines && |s.windows| == cfg.engines
    ensures var r := TickEngine(cfg, w, s, e);
      && |r.calls| == |s.calls| && |r.windows| == cfg.engines && r.time == s.time
      && (forall i, d :: 0 <= i < |s.calls| && d != e ==> (LiveOn(r.calls[i], d) <==> LiveOn(s.calls[i], d)))
      && (forall i :: 0 <= i < |s.calls| ==>
            (r.calls[i].status == Pending <==> s.calls[i].status == Pending) && (Live(r.calls[i]) ==> Live(s.calls[i])))
      && (forall i :: 0 <= i < |s.calls| && !Live(s.calls[i]) ==> r.calls[i] == s.calls[i])
      && (forall d :: 0 <= d < cfg.engines && d != e && Served(s, d) ==> Served(r, d))
  {
    hide TickEngine, Sel, Stamps, Slots, AllSlots, ValidConfig, ValidWorkload, Served, AllBooks, AllAfterParents,
      AllPlaces;
    var r := TickEngine(cfg, w, s, e);
    TickInv(cfg, w, s, e);
    TickSlots(cfg, w, s, e);
    forall i | 0 <= i < |s.calls|
      ensures && (forall d :: d != e ==> (LiveOn(r.calls[i], d) <==> LiveOn(s.calls[i], d)))
              && (r.calls[i].status == Pending <==> s.calls[i].status == Pending)
              && (Live(r.calls[i]) ==> Live(s.calls[i]))
              && (!Live(s.calls[i]) ==> r.calls[i] == s.calls[i])
    {
      TickCallKeeps(cfg, w, s, e, i);
    }
    forall d | 0 <= d < cfg.engines && d != e && Served(s, d) ensures Served(r, d) {
      TickOthers(cfg, w, s, e, d);
      SlotsAt(cfg, s.calls, d);
      SlotsSame(cfg, s.calls, r.calls, s.counter, s.counter, d);
      TickWindows(cfg, w, s, e, d);
      ServedSame(s, r, d);
    }
  }

  lemma TickWindows(cfg: Config, w: Workload, s: Sim, e: nat, d: nat)
    requires Shape(cfg, w, s) && e < cfg.engines && d < cfg.engines && d != e
    ensures TickEngine(cfg, w, s, e).windows[d] == s.windows[d]
  {
    hide Sel, Ticked, Fill, Settle, Rows, ValidConfig, ValidWorkload;
  }

  ghost predicate LiveBelow(s: Sim, k: nat) { exists i, d: nat :: 0 <= i < |s.calls| && d < k && LiveOn(s.calls[i], d) }

  lemma ServedRuns(s: Sim, e: nat, i: nat)
    requires e < |s.windows| && Served(s, e) && i < |s.calls| && LiveOn(s.calls[i], e)
    ensures RunningOn(s.calls, e) != []
  {
    hide Sel;
  }

  lemma {:induction false} TickUpToBudget(cfg: Config, w: Workload, s: Sim, k: nat)
    requires Inv(cfg, w, s) && k <= cfg.engines && |s.windows| == cfg.engines && |s.calls| == |cfg.prep|
    requires forall e :: 0 <= e < cfg.engines ==> Served(s, e)
    ensures var r := TickUpTo(cfg, w, s, k);
      && |r.calls| == |s.calls| && |r.windows| == cfg.engines
      && Budget(cfg, r) <= Budget(cfg, s)
      && (LiveBelow(s, k) ==> Budget(cfg, r) <= Budget(cfg, s) - 1)
      && (forall e :: k <= e < cfg.engines ==> Served(r, e))
      && (forall i, d :: 0 <= i < |s.calls| && d >= k ==> (LiveOn(r.calls[i], d) <==> LiveOn(s.calls[i], d)))
      && (forall i :: 0 <= i < |s.calls| ==>
            (r.calls[i].status == Pending <==> s.calls[i].status == Pending) && (Live(r.calls[i]) ==> Live(s.calls[i])))
      && (forall i :: 0 <= i < |s.calls| && !Live(s.calls[i]) ==> r.calls[i] == s.calls[i])
  {
    hide Inv, Shape, Budget, TickEngine, Served, Sel, LiveOn, Live;
    InvShape(cfg, w, s);
    TickUnroll(cfg, w, s, k);
    if k > 0 {
      TickUpToBudget(cfg, w, s, k - 1);
      TickUpToInv(cfg, w, s, k - 1);
      var mid := TickUpTo(cfg, w, s, k - 1);
      TickBudget(cfg, w, mid, k - 1);
      TickKeepsOthers(cfg, w, mid, k - 1);
      if LiveBelow(s, k) && !LiveBelow(s, k - 1) {
        var i, d: nat :| 0 <= i < |s.calls| && d < k && LiveOn(s.calls[i], d);
        ServedRuns(mid, k - 1, i);
      }
    }
  }

  // ---- Pending calls -------------------------------------------------------------

  ghost function Delays(w: Workload, calls: seq<Call>): (r: seq<int>)
    requires |w.specs| == |calls|
    ensures |r| == |calls|
    ensures forall i :: 0 <= i < |calls| ==> r[i] == if calls[i].status == Pending then w.specs[i].releaseDelay else 0
  {
    seq(|calls|, i requires 0 <= i < |calls| => if calls[i].status == Pending then w.specs[i].releaseDelay else 0)
  }

  function LatestBase(w: Workload, k: nat): (r: int)
    requires k <= |w.specs| && forall i :: 0 <= i < |w.specs| ==> w.specs[i].pid < |w.arrivals|
    ensures forall i :: 0 <= i < k ==> BaseTime(w, w.specs[i]) <= r
    ensures r >= 0
  {
    if k == 0 then 0 else Max(BaseTime(w, w.specs[k - 1]), LatestBase(w, k - 1))
  }

  /** A pending call below which nothing is live or pending: it waits only for the clock. */
  lemma {:induction false} ReadyBelow(w: Workload, calls: seq<Call>, rank: seq<nat>, i: nat) returns (j: nat)
    requires Ranked(w, rank) && |calls| == |w.specs| && i < |calls|
    requires calls[i].status == Pending
    requires forall k :: 0 <= k < |calls| ==>
      calls[k].status == Pending || (calls[k].status == Finished && calls[k].finish.Some?)
    ensures j < |calls| && calls[j].status == Pending && ParentsFinished(w, calls, j)
    decreases rank[i]
  {
    if ParentsFinished(w, calls, i) {
      j := i;
    } else {
      var k :| 0 <= k < |w.specs[i].parents|
        && !(w.specs[i].parents[k] < |calls| && calls[w.specs[i].parents[k]].finish.Some?);
      j := ReadyBelow(w, calls, rank, w.specs[i].parents[k]);
    }
  }

  /** With its parents finished by time `t`, a pending call is due by `max(t, base) + delay`. */
  lemma EarliestBound(cfg: Config, w: Workload, calls: seq<Call>, j: nat, t: int)
    requires |calls| == |w.specs| && j < |calls| && forall i :: 0 <= i < |w.specs| ==> w.specs[i].pid < |w.arrivals|
    requires ParentsFinished(w, calls, j)
    requires forall p :: 0 <= p < |calls| && calls[p].finish.Some? ==> calls[p].finish.value <= t
    ensures Earliest(cfg, w, calls, j) <= Max(t, LatestBase(w, |w.specs|)) + w.specs[j].releaseDelay
  {
  }

  // ---- The bound -----------------------------------------------------------------

  /** What one call may contribute to the length of a run: its delay, its scheduler ticks, and its
      model ticks, each with the penalty of one scheduling decision. */
  function Charge(cfg: Config, w: Workload, i: nat): int
    requires i < |w.specs| == |cfg.prep|
  {
    w.specs[i].releaseDelay + cfg.prep[i].sched + (1 + Price(cfg)) * cfg.prep[i].model
  }

  ghost function Charges(cfg: Config, w: Workload): (r: seq<int>)
    requires |w.specs| == |cfg.prep|
    ensures |r| == |w.specs| && forall i :: 0 <= i < |r| ==> r[i] == Charge(cfg, w, i)
  {
    seq(|w.specs|, i requires 0 <= i < |w.specs| => Charge(cfg, w, i))
  }

  /** A time by which every run has finished. */
  ghost function RunBound(cfg: Config, w: Workload): int
    requires ValidWorkload(w) && ValidConfig(cfg, w)
  {
    LatestBase(w, |w.specs|) + Sum(Charges(cfg, w))
  }

  ghost function Released(cfg: Config, w: Workload, s: Sim): Sim
    requires Shape(cfg, w, s)
  {
    ReleaseUpTo(cfg, w, s, |s.calls|)
  }

  /** The time by which the rest of the run must be over, read after the due calls were released. */
  ghost function Deadline(cfg: Config, w: Workload, s: Sim): int
    requires Shape(cfg, w, s)
  {
    Max(s.time, LatestBase(w, |w.specs|)) + Budget(cfg, s) + Sum(Delays(w, Released(cfg, w, s).calls))
  }

  lemma DelaysDrop(w: Workload, calls: seq<Call>, calls': seq<Call>)
    requires |w.specs| == |calls| == |calls'|
    requires forall i :: 0 <= i < |calls| && calls'[i].status == Pending ==> calls[i].status == Pending
    ensures 0 <= Sum(Delays(w, calls')) <= Sum(Delays(w, calls))
    ensures forall j :: 0 <= j < |calls| && calls[j].status == Pending && calls'[j].status != Pending ==>
      Sum(Delays(w, calls')) <= Sum(Delays(w, calls)) - w.specs[j].releaseDelay
    ensures forall j :: 0 <= j < |calls| && calls'[j].status == Pending ==>
      w.specs[j].releaseDelay <= Sum(Delays(w, calls'))
  {
    var was, now := Delays(w, calls), Delays(w, calls');
    SumNonNegative(now);
    SumMonotone(now, was);
    forall j | 0 <= j < |calls| && calls[j].status == Pending && calls'[j].status != Pending
      ensures Sum(now) <= Sum(was) - w.specs[j].releaseDelay
    {
      SumMonotone(now, was[j := 0]);
      SumUpdate(was, j, 0);
    }
    assert forall j :: 0 <= j < |calls| && calls'[j].status == Pending ==> now[j] == w.specs[j].releaseDelay;
  }

  lemma InitDeadline(cfg: Config, w: Workload)
    requires ValidWorkload(w) && ValidConfig(cfg, w)
    ensures Deadline(cfg, w, Init(cfg, w)) <= RunBound(cfg, w)
  {
    hide Price, Ranked;
    var s := Init(cfg, w);
    ReleaseUpToCalls(cfg, w, s, |s.calls|);
    DelaysDrop(w, s.calls, Released(cfg, w, s).calls);
    SumAdd(Delays(w, s.calls), CallBudgets(cfg, s.calls), Charges(cfg, w));
    forall e | 0 <= e < cfg.engines ensures EngineBudgets(cfg, s)[e] == 0 {
      NobodyListed(s.calls, e, {Running});
    }
    SumZero(EngineBudgets(cfg, s));
    assert BaseTime(w, w.specs[0]) <= LatestBase(w, |w.specs|);
  }

  /** After release, schedule and execution of one step: the budget paid for the tick if anything was live. */
  lemma StepBudget(cfg: Config, w: Workload, s: Sim)
    requires Inv(cfg, w, s) && s.time <= cfg.maxTime
    requires |s.calls| == |cfg.prep|
    ensures var a := Released(cfg, w, s);
      var c := TickUpTo(cfg, w, ScheduleUpTo(cfg, w, a, cfg.engines), cfg.engines);
      && Shape(cfg, w, s) && |c.calls| == |a.calls| == |s.calls| && c.time == s.time && Midway(cfg, w, c, cfg.engines)
      && Inv(cfg, w, a)
      && Budget(cfg, c) <= Budget(cfg, s)
      && (Busy(a) ==> Budget(cfg, c) <= Budget(cfg, s) - 1)
      && (forall i :: 0 <= i < |s.calls| ==>
            (c.calls[i].status == Pending <==> a.calls[i].status == Pending) && (Live(c.calls[i]) ==> Live(a.calls[i])))
      && (forall i :: 0 <= i < |s.calls| && !Live(a.calls[i]) ==> c.calls[i].finish == a.calls[i].finish)
  {
    hide Inv, Shape, Budget, Served, Sel, TickUpTo, ScheduleUpTo, ReleaseUpTo, Midway, LiveOn, Live;
    InvShape(cfg, w, s);
    ReleaseUpToInv(cfg, w, s, |s.calls|);
    ReleaseUpToBudget(cfg, w, s, |s.calls|);
    var a := Released(cfg, w, s);
    InvShape(cfg, w, a);
    ShapeSizes(cfg, w, a);
    ScheduleUpToInv(cfg, w, a, cfg.engines);
    ScheduleUpToBudget(cfg, w, a, cfg.engines);
    var b := ScheduleUpTo(cfg, w, a, cfg.engines);
    InvShape(cfg, w, b);
    ShapeSizes(cfg, w, b);
    TickUpToInv(cfg, w, b, cfg.engines);
    TickUpToBudget(cfg, w, b, cfg.engines);
    ShapeSizes(cfg, w, s);
    BusyBelow(cfg, w, a, b);
    ScheduleStatus(cfg, w, a, b);
  }

  lemma BusyBelow(cfg: Config, w: Workload, a: Sim, b: Sim)
    requires Inv(cfg, w, a) && |a.calls| == |b.calls|
    requires forall i, d :: 0 <= i < |a.calls| ==> (LiveOn(b.calls[i], d) <==> LiveOn(a.calls[i], d))
    ensures Busy(a) ==> LiveBelow(b, cfg.engines)
  {
    hide AllSlots, AllBooks, AllAfterParents, Stamps;
    if Busy(a) {
      var i :| 0 <= i < |a.calls| && Live(a.calls[i]);
      assert Placed(cfg, a.calls[i]) && LiveOn(a.calls[i], a.calls[i].engine);
      assert LiveOn(b.calls[i], a.calls[i].engine);
    }
  }

  lemma ScheduleStatus(cfg: Config, w: Workload, a: Sim, b: Sim)
    requires Inv(cfg, w, a) && cfg.engines > 0 && b == ScheduleUpTo(cfg, w, a, cfg.engines) && |b.calls| == |a.calls|
    ensures forall i :: 0 <= i < |a.calls| ==>
      && (b.calls[i].status == Pending <==> a.calls[i].status == Pending) && (Live(b.calls[i]) <==> Live(a.calls[i]))
      && b.calls[i].finish == a.calls[i].finish
  {
    hide *;
    InvShape(cfg, w, a);
    ScheduleUpToStatus(cfg, w, a, cfg.engines);
  }

  lemma {:induction false} ScheduleUpToStatus(cfg: Config, w: Workload, s: Sim, k: nat)
    requires Inv(cfg, w, s) && k <= cfg.engines
    ensures var r := ScheduleUpTo(cfg, w, s, k);
      |r.calls| == |s.calls| && forall i :: 0 <= i < |s.calls| ==> SchedulingKeeps(s.calls[i], r.calls[i])
    ensures var r := ScheduleUpTo(cfg, w, s, k);
      forall i :: 0 <= i < |s.calls| ==>
        && (r.calls[i].status == Pending <==> s.calls[i].status == Pending) && (Live(r.calls[i]) <==> Live(s.calls[i]))
        && r.calls[i].finish == s.calls[i].finish
  {
    hide Inv, Shape, ScheduleEngine;
    InvShape(cfg, w, s);
    ShapeSizes(cfg, w, s);
    ScheduleUnroll(cfg, w, s, k);
    if k > 0 {
      ScheduleUpToStatus(cfg, w, s, k - 1);
      ScheduleUpToInv(cfg, w, s, k - 1);
      var mid := ScheduleUpTo(cfg, w, s, k - 1);
      InvStart(cfg, w, mid);
      ShapeSizes(cfg, w, ScheduleUpTo(cfg, w, s, k));
      forall i | 0 <= i < |s.calls| ensures SchedulingKeeps(mid.calls[i], ScheduleEngine(cfg, w, mid, k - 1).calls[i]) {
        ScheduleKeeps(cfg, w, mid, k - 1, i);
      }
    } else {
      InvStart(cfg, w, s);
    }
  }

  lemma InvStart(cfg: Config, w: Workload, s: Sim)
    requires Inv(cfg, w, s)
    ensures Shape(cfg, w, s) && Stamps(s.calls, s.counter) && AllPlaces(cfg, s.calls) && AllSlots(cfg, s.calls)
    ensures forall i :: 0 <= i < |s.calls| && s.calls[i].status == Running ==> s.calls[i].start.Some?
  {
    hide Stamps, AllSlots, AllPlaces, AllAfterParents;
    BooksStart(s.calls, s.time, 0);
  }

  /** When nothing is live, the next release is due soon after the last finish: by the delay of some waiting call. */
  lemma SkipBound(cfg: Config, w: Workload, c: Sim, u: int) returns (j: nat)
    requires Shape(cfg, w, c) && !Busy(c) && !AllFinished(c)
    requires AllBooks(c.calls, c.time, cfg.engines)
    requires forall p :: 0 <= p < |c.calls| && c.calls[p].finish.Some? ==> c.calls[p].finish.value <= u
    requires Max(u, LatestBase(w, |w.specs|)) + Sum(Delays(w, c.calls)) <= cfg.maxTime
    ensures j < |c.calls| && c.calls[j].status == Pending
    ensures NextRelease(cfg, w, c, |c.calls|) == Some(Earliest(cfg, w, c.calls, j))
    ensures Earliest(cfg, w, c.calls, j) <= Max(u, LatestBase(w, |w.specs|)) + w.specs[j].releaseDelay
  {
    hide Earliest, ValidConfig, LatestBase;
    BooksStart(c.calls, c.time, cfg.engines);
    var rank :| Ranked(w, rank);
    var i :| 0 <= i < |c.calls| && c.calls[i].status != Finished;
    var ready := ReadyBelow(w, c.calls, rank, i);
    EarliestBound(cfg, w, c.calls, ready, u);
    DelaysDrop(w, c.calls, c.calls);
    assert PendingAt(c, ready);
    var next := NextRelease(cfg, w, c, |c.calls|);
    j :| j < |c.calls| && PendingAt(c, j) && next.value == Earliest(cfg, w, c.calls, j);
    SentinelIsLate(cfg, w, c.calls, j);
    if ParentsFinished(w, c.calls, j) {
      EarliestBound(cfg, w, c.calls, j, u);
    }
  }

  lemma SentinelIsLate(cfg: Config, w: Workload, calls: seq<Call>, j: nat)
    requires j < |calls| == |w.specs| && w.specs[j].pid < |w.arrivals|
    ensures !ParentsFinished(w, calls, j) ==> Earliest(cfg, w, calls, j) == cfg.maxTime + 1
  {
  }

  lemma FinishedBy(calls: seq<Call>, time: int, k: nat, t: int)
    requires AllBooks(calls, time, k) && time + 1 <= t
    ensures forall p :: 0 <= p < |calls| && calls[p].finish.Some? ==> calls[p].finish.value <= t
  {
    forall p | 0 <= p < |calls| && calls[p].finish.Some? ensures calls[p].finish.value <= t {
      assert Books(calls[p], if calls[p].engine < k then time + 1 else time);
    }
  }

  lemma FinishedNow(cfg: Config, w: Workload, s: Sim)
    requires Inv(cfg, w, s)
    ensures forall p :: 0 <= p < |s.calls| && s.calls[p].finish.Some? ==> s.calls[p].finish.value <= s.time
  {
    hide AllSlots, Stamps, AllAfterParents, AllPlaces;
    forall p | 0 <= p < |s.calls| && s.calls[p].finish.Some? ensures s.calls[p].finish.value <= s.time {
      assert Books(s.calls[p], s.time);
    }
  }

  /** A step with something live: the budget pays for the tick. */
  lemma BusyStep(cfg: Config, w: Workload, s: Sim)
    requires Inv(cfg, w, s) && s.time <= cfg.maxTime && |s.calls| == |cfg.prep| && Shape(cfg, w, s)
    requires Busy(Released(cfg, w, s)) && Deadline(cfg, w, s) <= cfg.maxTime
    ensures Deadline(cfg, w, Step(cfg, w, s)) <= Deadline(cfg, w, s)
  {
    hide Inv, Shape, TickUpTo, ScheduleUpTo, ReleaseUpTo, Busy, AllFinished, Earliest, LatestBase, AllSlots, Stamps,
      AllAfterParents,
      AllPlaces, AllBooks, Budget, NextRelease;
    StepBudget(cfg, w, s);
    var a := Released(cfg, w, s);
    var c := TickUpTo(cfg, w, ScheduleUpTo(cfg, w, a, cfg.engines), cfg.engines);
    var r := Step(cfg, w, s);
    StepResult(cfg, w, s);
    MidwayParts(cfg, w, c);
    ShapeSizes(cfg, w, c);
    BudgetClock(cfg, w, c, r.time);
    ReleaseAgain(cfg, w, r);
    DelaysDrop(w, a.calls, c.calls);
    DelaysDrop(w, c.calls, Released(cfg, w, r).calls);
    StepInv(cfg, w, s);
    BudgetNonNegative(cfg, w, c, cfg.engines);
    if r.time != s.time + 1 {
      IdleFacts(cfg, w, c, s.time + 1);
      FinishedBy(c.calls, c.time, cfg.engines, s.time + 1);
      var j := SkipBound(cfg, w, c, s.time + 1);
    }
  }

  lemma StepResult(cfg: Config, w: Workload, s: Sim)
    requires Shape(cfg, w, s)
    ensures var c := TickUpTo(cfg, w, ScheduleUpTo(cfg, w, Released(cfg, w, s), cfg.engines), cfg.engines);
      Step(cfg, w, s) == c.(time := NextTime(cfg, w, c, s.time + 1))
  {
    hide TickUpTo, ScheduleUpTo, ReleaseUpTo, Shape;
  }

  lemma MidwayParts(cfg: Config, w: Workload, c: Sim)
    requires Midway(cfg, w, c, cfg.engines)
    ensures Shape(cfg, w, c) && AllBooks(c.calls, c.time, cfg.engines)
  {
  }

  lemma BudgetClock(cfg: Config, w: Workload, c: Sim, time: int)
    requires |c.calls| == |cfg.prep|
    ensures Budget(cfg, c.(time := time)) == Budget(cfg, c)
  {
    hide Sel, Price;
    var r := c.(time := time);
    assert EngineBudgets(cfg, r) == EngineBudgets(cfg, c);
  }

  /** The next step's release only ever removes pending calls, and removes those that are due. */
  lemma ReleaseAgain(cfg: Config, w: Workload, r: Sim)
    requires Shape(cfg, w, r)
    ensures var a := Released(cfg, w, r);
      && |a.calls| == |r.calls|
      && (forall i :: 0 <= i < |r.calls| && a.calls[i].status == Pending ==> r.calls[i].status == Pending)
      && (forall i :: 0 <= i < |r.calls| && r.calls[i].status == Pending && Earliest(cfg, w, r.calls, i) <= r.time ==>
         a.calls[i].status != Pending)
      && (forall i :: 0 <= i < |r.calls| && a.calls[i].status == Pending ==> Earliest(cfg, w, r.calls, i) > r.time)
      && (forall i :: 0 <= i < |r.calls| ==> a.calls[i].finish == r.calls[i].finish)
      && (forall i :: 0 <= i < |r.calls| && Live(r.calls[i]) ==> Live(a.calls[i]))
      && (forall i :: 0 <= i < |r.calls| && r.calls[i].status == Pending && a.calls[i].status != Pending ==>
         Live(a.calls[i]))
      && (forall i :: 0 <= i < |r.calls| && a.calls[i].status == Finished ==> r.calls[i].status == Finished)
  {
    hide Earliest, ValidWorkload, ValidConfig;
    ReleaseUpToCalls(cfg, w, r, |r.calls|);
  }

  lemma IdleFacts(cfg: Config, w: Workload, c: Sim, time: int)
    requires Shape(cfg, w, c) && NextTime(cfg, w, c, time) != time
    ensures !Busy(c) && !AllFinished(c)
    ensures var next := NextRelease(cfg, w, c, |c.calls|); next.Some? && NextTime(cfg, w, c, time) == next.value
  {
    hide Earliest, ValidWorkload, ValidConfig;
  }

  /** A step with nothing live: the clock goes to the next release, which the delays pay for. */
  lemma IdleStep(cfg: Config, w: Workload, s: Sim)
    requires Inv(cfg, w, s) && s.time <= cfg.maxTime && |s.calls| == |cfg.prep| && Shape(cfg, w, s)
    requires !Busy(Released(cfg, w, s)) && !AllFinished(s) && Deadline(cfg, w, s) <= cfg.maxTime
    ensures Deadline(cfg, w, Step(cfg, w, s)) <= Deadline(cfg, w, s)
  {
    hide Inv, Shape, TickUpTo, ScheduleUpTo, ReleaseUpTo, Earliest, LatestBase, AllSlots, Stamps, AllAfterParents,
      AllPlaces, AllBooks, Budget, NextRelease, Live, NextTime, Sum, Delays;
    StepBudget(cfg, w, s);
    var a := Released(cfg, w, s);
    var c := TickUpTo(cfg, w, ScheduleUpTo(cfg, w, a, cfg.engines), cfg.engines);
    var r := Step(cfg, w, s);
    StepResult(cfg, w, s);
    MidwayParts(cfg, w, c);
    ShapeSizes(cfg, w, s);
    ShapeSizes(cfg, w, c);
    BudgetClock(cfg, w, c, r.time);
    ReleaseAgain(cfg, w, s);
    ReleaseAgain(cfg, w, r);
    DelaysDrop(w, a.calls, c.calls);
    DelaysDrop(w, c.calls, Released(cfg, w, r).calls);
    StepInv(cfg, w, s);
    BudgetNonNegative(cfg, w, c, cfg.engines);
    FinishedNow(cfg, w, a);
    InvTime(cfg, w, s);
    assert !Busy(c);
    UnfinishedStays(s, a, c);
    var j := SkipBound(cfg, w, c, s.time);
    EarliestSame(cfg, w, s.calls, c.calls, j);
    IdleTime(cfg, w, c, s.time + 1, Earliest(cfg, w, c.calls, j));
  }

  lemma UnfinishedStays(s: Sim, a: Sim, c: Sim)
    requires |s.calls| == |a.calls| == |c.calls| && !AllFinished(s)
    requires forall i :: 0 <= i < |s.calls| && a.calls[i].status == Finished ==> s.calls[i].status == Finished
    requires forall i :: 0 <= i < |s.calls| ==>
      (c.calls[i].status == Pending <==> a.calls[i].status == Pending) && (Live(c.calls[i]) ==> Live(a.calls[i]))
    requires !Busy(a)
    ensures !AllFinished(c)
  {
    var i :| 0 <= i < |s.calls| && s.calls[i].status != Finished;
    assert !Live(a.calls[i]);
    assert a.calls[i].status == Pending;
  }

  lemma InvTime(cfg: Config, w: Workload, s: Sim)
    requires Shape(cfg, w, s)
    ensures Released(cfg, w, s).time == s.time
  {
    hide Shape;
    ReleaseUpToCalls(cfg, w, s, |s.calls|);
  }

  lemma IdleTime(cfg: Config, w: Workload, c: Sim, time: int, next: int)
    requires Shape(cfg, w, c) && !Busy(c) && NextRelease(cfg, w, c, |c.calls|) == Some(next) && next >= time
    ensures NextTime(cfg, w, c, time) == next
  {
    hide Earliest, ValidWorkload, ValidConfig;
  }

  // ---- Termination ---------------------------------------------------------------

  lemma {:induction false} DeadlineHolds(cfg: Config, w: Workload, n: nat)
    requires ValidWorkload(w) && ValidConfig(cfg, w) && RunBound(cfg, w) <= cfg.maxTime
    ensures Deadline(cfg, w, Reach(cfg, w, n)) <= RunBound(cfg, w)
    ensures Reach(cfg, w, n).time <= RunBound(cfg, w)
    ensures AllFinished(Reach(cfg, w, n)) || Reach(cfg, w, n).time >= FirstArrival(w.arrivals) + n
  {
    hide ValidWorkload, ValidConfig, Step, AllFinished, Deadline, RunBound;
    var s := Reach(cfg, w, n);
    if n == 0 {
      InitDeadline(cfg, w);
    } else {
      DeadlineHolds(cfg, w, n - 1);
      var was := Reach(cfg, w, n - 1);
      ReachInv(cfg, w, n - 1);
      ShapeSizes(cfg, w, was);
      if !AllFinished(was) {
        StepInv(cfg, w, was);
        if Busy(Released(cfg, w, was)) { BusyStep(cfg, w, was); } else { IdleStep(cfg, w, was); }
      }
    }
    ReachInv(cfg, w, n);
    DeadlineTime(cfg, w, s);
  }

  lemma DeadlineTime(cfg: Config, w: Workload, s: Sim)
    requires Inv(cfg, w, s) && Shape(cfg, w, s)
    ensures s.time <= Deadline(cfg, w, s)
  {
    hide Inv, Shape, Budget;
    ShapeSizes(cfg, w, s);
    InvMidway(cfg, w, s);
    BudgetNonNegative(cfg, w, s, 0);
    ReleaseAgain(cfg, w, s);
    DelaysDrop(w, s.calls, Released(cfg, w, s).calls);
  }

  /** Every run whose time limit is at least the bound finishes every call, by the bound, without raising the limit
      error. */
  lemma RunFinishes(cfg: Config, w: Workload, n: nat)
    requires ValidWorkload(w) && ValidConfig(cfg, w) && RunBound(cfg, w) <= cfg.maxTime
    ensures Reach(cfg, w, n).time <= RunBound(cfg, w)
    ensures n > RunBound(cfg, w) - FirstArrival(w.arrivals) ==> AllFinished(Reach(cfg, w, n))
  {
    hide ValidWorkload, ValidConfig, RunBound, AllFinished;
    DeadlineHolds(cfg, w, n);
  }
}
