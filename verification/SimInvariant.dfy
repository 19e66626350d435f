/** What every tick of the simulator keeps: conservation of calls, of slots and of time,
 *  and the order between parents and children. */
module SimInvariant {
  import opened Sequences
  import opened Levels
  import opened SimModel

  // ---- Lists by stamp ------------------------------------------------------------

  /** Live calls carry distinct stamps of the scheduler's counter. */
  ghost predicate Stamps(calls: seq<Call>, counter: nat) {
    && (forall i :: 0 <= i < |calls| && Live(calls[i]) ==> calls[i].order <= counter)
    && (forall i, j :: 0 <= i < j < |calls| && Live(calls[i]) && Live(calls[j]) ==> calls[i].order != calls[j].order)
  }

  lemma StampsPlaces(calls: seq<Call>, counter: nat, e: nat)
    requires Stamps(calls, counter)
    ensures Stamped(PlacesOf(calls, e), counter)
  {
    var p := PlacesOf(calls, e);
    forall i, j | i in p && j in p && i != j ensures p[i].order != p[j].order {
      if i < j {} else { assert calls[j].order != calls[i].order; }
    }
  }

  predicate KeyLess(a: Call, b: Call) { Before(Place(a.queue, a.order), Place(b.queue, b.order)) }

  /** The calls of the list stand in the order (level, stamp). */
  ghost predicate InOrder(calls: seq<Call>, list: seq<nat>) {
    && (forall j :: 0 <= j < |list| ==> list[j] < |calls|)
    && (forall j, k :: 0 <= j < k < |list| ==> KeyLess(calls[list[j]], calls[list[k]]))
  }

  lemma SelSorted(calls: seq<Call>, counter: nat, e: nat, kinds: set<Status>)
    requires Stamps(calls, counter) && kinds <= LIVE
    ensures forall i :: i in Sel(calls, e, kinds) ==> i in PlacesOf(calls, e)
    ensures Sorted(Sel(calls, e, kinds), PlacesOf(calls, e)) && NoDup(Sel(calls, e, kinds))
  {
    hide Stamps;
    StampsPlaces(calls, counter, e);
    SortSorted(Picks(calls, e, kinds), PlacesOf(calls, e), counter);
    hide Sort, PlacesOf, Picks, Stamped;
    SortedNoDup(Sel(calls, e, kinds), PlacesOf(calls, e));
  }

  lemma SelFacts(calls: seq<Call>, counter: nat, e: nat, kinds: set<Status>)
    requires Stamps(calls, counter) && kinds <= LIVE
    ensures InOrder(calls, Sel(calls, e, kinds))
    ensures NoDup(Sel(calls, e, kinds))
  {
    hide Stamps, Sel;
    SelSorted(calls, counter, e, kinds);
    var p, list := PlacesOf(calls, e), Sel(calls, e, kinds);
    forall j | 0 <= j < |list| ensures list[j] < |calls| && list[j] in p {
      assert list[j] in list;
    }
    forall j, k | 0 <= j < k < |list| ensures KeyLess(calls[list[j]], calls[list[k]]) {
      assert Before(p[list[j]], p[list[k]]);
    }
  }

  /** A list in order with the right members is the list. */
  lemma SelIs(calls: seq<Call>, counter: nat, e: nat, kinds: set<Status>, list: seq<nat>)
    requires Stamps(calls, counter) && kinds <= LIVE
    requires forall i :: i in list <==> 0 <= i < |calls| && calls[i].engine == e && calls[i].status in kinds
    requires InOrder(calls, list)
    ensures Sel(calls, e, kinds) == list
  {
    var p := PlacesOf(calls, e);
    StampsPlaces(calls, counter, e);
    SortSorted(Picks(calls, e, kinds), p, counter);
    forall j, k | 0 <= j < k < |list| ensures Before(p[list[j]], p[list[k]]) {
      assert list[j] in list && list[k] in list;
      assert KeyLess(calls[list[j]], calls[list[k]]);
    }
    SortedUnique(Sel(calls, e, kinds), list, p);
  }

  /** The list depends on nothing but its members and their keys. */
  lemma SelSame(calls: seq<Call>, calls': seq<Call>, counter: nat, counter': nat, e: nat, kinds: set<Status>)
    requires |calls'| == |calls| && kinds <= LIVE
    requires Stamps(calls, counter) && Stamps(calls', counter')
    requires forall i :: 0 <= i < |calls| ==>
      ((calls[i].engine == e && calls[i].status in kinds) <==> (calls'[i].engine == e && calls'[i].status in kinds))
    requires forall i :: 0 <= i < |calls| && calls[i].engine == e && calls[i].status in kinds ==>
      calls'[i].queue == calls[i].queue && calls'[i].order == calls[i].order
    ensures Sel(calls', e, kinds) == Sel(calls, e, kinds)
  {
    hide Sel, Stamps;
    SelFacts(calls, counter, e, kinds);
    var list := Sel(calls, e, kinds);
    OrderSame(calls, calls', list);
    SelIs(calls', counter', e, kinds, list);
  }

  lemma OrderSame(calls: seq<Call>, calls': seq<Call>, list: seq<nat>)
    requires |calls'| == |calls| && InOrder(calls, list)
    requires forall i :: i in list ==> calls'[i].queue == calls[i].queue && calls'[i].order == calls[i].order
    ensures InOrder(calls', list)
  {
    forall j, k | 0 <= j < k < |list| ensures KeyLess(calls'[list[j]], calls'[list[k]]) {
      assert list[j] in list && list[k] in list && KeyLess(calls[list[j]], calls[list[k]]);
    }
  }

  // ---- The invariant -------------------------------------------------------------

  /** The books of one call at clock reading `now`. */
  ghost predicate Books(c: Call, now: int) {
    match c.status
    case Pending => c.finish.None? && c.start.None? && c.swap == 0 && c.swapLeft == 0 && c.executed == 0 && c.wait == 0
    case Finished =>
      && c.model >= 1 && c.remaining == 0 && c.executed == c.model && c.swapLeft == 0 && c.schedLeft == 0
      && c.wait >= 0 && c.swap >= 0 && c.sched >= 0
      && c.finish.Some? && c.finish.value <= now && c.start.Some?
      && c.finish.value - c.ready == c.wait + c.model + c.swap + c.sched
    case _ =>
      && c.model >= 1 && c.remaining >= 1 && c.executed + c.remaining == c.model && c.executed >= 0
      && 0 <= c.swapLeft <= c.swap && 0 <= c.schedLeft <= c.sched && c.wait >= 0
      && c.finish.None? && (c.status == Running ==> c.start.Some?)
      && c.wait + c.executed + (c.swap - c.swapLeft) + (c.sched - c.schedLeft) == now - c.ready
  }

  /** A released call waited for its program, for its own submission, and for every parent's finish plus the delay. */
  ghost predicate ReleasedAfterParents(w: Workload, calls: seq<Call>, i: nat)
    requires i < |w.specs| == |calls| && w.specs[i].pid < |w.arrivals|
  {
    calls[i].status != Pending ==>
      && BaseTime(w, w.specs[i]) <= calls[i].ready
      && (forall p :: p in w.specs[i].parents ==>
            p < |calls| && calls[p].status == Finished && calls[p].finish.Some? &&
            calls[p].finish.value + w.specs[i].releaseDelay <= calls[i].ready)
  }

  ghost predicate Placed(cfg: Config, c: Call) {
    Live(c) ==> c.engine < cfg.engines && c.queue < |cfg.quanta|
  }

  /** Slots of one engine: never more than the batch runs, never more than batch plus reserve is resident,
      nobody is prefetched while a batch slot is free, and the running calls come before the prefetched ones in line. */
  ghost predicate Slots(cfg: Config, calls: seq<Call>, e: nat) {
    && InOrder(calls, RunningOn(calls, e) + PrefetchedOn(calls, e))
    && |RunningOn(calls, e)| <= cfg.batch
    && |RunningOn(calls, e)| + |PrefetchedOn(calls, e)| <= cfg.batch + cfg.over
    && (PrefetchedOn(calls, e) != [] ==> |RunningOn(calls, e)| == cfg.batch)
  }

  ghost predicate AllBooks(calls: seq<Call>, time: int, k: nat) {
    forall i :: 0 <= i < |calls| ==> Books(calls[i], if calls[i].engine < k then time + 1 else time)
  }

  ghost predicate AllAfterParents(w: Workload, calls: seq<Call>)
    requires |w.specs| == |calls| && forall i :: 0 <= i < |w.specs| ==> w.specs[i].pid < |w.arrivals|
  {
    forall i :: 0 <= i < |calls| ==> ReleasedAfterParents(w, calls, i)
  }

  ghost predicate AllPlaces(cfg: Config, calls: seq<Call>) {
    forall i :: 0 <= i < |calls| ==> Placed(cfg, calls[i])
  }

  ghost predicate AllSlots(cfg: Config, calls: seq<Call>) {
    forall e :: 0 <= e < cfg.engines ==> Slots(cfg, calls, e)
  }

  ghost predicate WindowsOk(cfg: Config, windows: seq<nat>) {
    forall e :: 0 <= e < |windows| ==> windows[e] <= cfg.interval
  }

  /** The invariant while the engines below `k` have already run the current tick. */
  ghost predicate Midway(cfg: Config, w: Workload, s: Sim, k: nat) {
    && Shape(cfg, w, s)
    && Stamps(s.calls, s.counter)
    && AllBooks(s.calls, s.time, k)
    && AllAfterParents(w, s.calls)
    && AllPlaces(cfg, s.calls)
    && AllSlots(cfg, s.calls)
    && WindowsOk(cfg, s.windows)
  }

  ghost predicate Inv(cfg: Config, w: Workload, s: Sim) { Midway(cfg, w, s, 0) }

  lemma ShapeSizes(cfg: Config, w: Workload, s: Sim)
    requires Shape(cfg, w, s)
    ensures |s.calls| == |w.specs| == |cfg.prep| && |s.windows| == cfg.engines && |s.entries| == |w.arrivals|
    ensures cfg.engines > 0 && cfg.batch > 0 && cfg.interval > 0 && |cfg.quanta| > 0
    ensures forall i :: 0 <= i < |w.specs| ==> w.specs[i].pid < |w.arrivals|
  {
  }

  lemma NobodyListed(calls: seq<Call>, e: nat, kinds: set<Status>)
    requires kinds <= LIVE && forall i :: 0 <= i < |calls| ==> calls[i].status !in kinds
    ensures Sel(calls, e, kinds) == []
  {
    EmptyOrMember(Sel(calls, e, kinds));
  }

  lemma InitInv(cfg: Config, w: Workload)
    requires ValidWorkload(w) && ValidConfig(cfg, w)
    ensures Inv(cfg, w, Init(cfg, w))
  {
    var s := Init(cfg, w);
    forall e | 0 <= e < cfg.engines ensures Slots(cfg, s.calls, e) {
      NobodyListed(s.calls, e, {Running});
      NobodyListed(s.calls, e, {Prefetched});
    }
  }

  /** Slots look at the resident calls of the engine only. */
  lemma SlotsSame(cfg: Config, calls: seq<Call>, calls': seq<Call>, counter: nat, counter': nat, e: nat)
    requires |calls'| == |calls| && Stamps(calls, counter) && Stamps(calls', counter')
    requires forall i :: 0 <= i < |calls| ==>
      ((calls[i].engine == e && Resident(calls[i])) <==> (calls'[i].engine == e && Resident(calls'[i])))
    requires forall i :: 0 <= i < |calls| && calls[i].engine == e && Resident(calls[i]) ==>
      calls'[i].queue == calls[i].queue && calls'[i].order == calls[i].order && calls'[i].status == calls[i].status
    requires Slots(cfg, calls, e)
    ensures Slots(cfg, calls', e)
    ensures RunningOn(calls', e) == RunningOn(calls, e) && PrefetchedOn(calls', e) == PrefetchedOn(calls, e)
  {
    hide Sel, Stamps;
    SelSame(calls, calls', counter, counter', e, {Running});
    SelSame(calls, calls', counter, counter', e, {Prefetched});
    OrderSame(calls, calls', RunningOn(calls, e) + PrefetchedOn(calls, e));
  }

  // ---- Release -------------------------------------------------------------------

  lemma ReleaseSlots(cfg: Config, w: Workload, s: Sim, i: nat)
    requires Shape(cfg, w, s) && Stamps(s.calls, s.counter) && i < |s.calls| && AllSlots(cfg, s.calls)
    ensures Stamps(Release(cfg, w, s, i).calls, Release(cfg, w, s, i).counter)
    ensures AllSlots(cfg, Release(cfg, w, s, i).calls)
  {
    hide ValidWorkload, ValidConfig, Slots, Earliest, CriticalPathService, PriorityOf, AssignQueue;
    var r := Release(cfg, w, s, i);
    if r != s {
      forall e | 0 <= e < cfg.engines ensures Slots(cfg, r.calls, e) {
        SlotsSame(cfg, s.calls, r.calls, s.counter, r.counter, e);
      }
    }
  }

  lemma ReleaseAfter(cfg: Config, w: Workload, s: Sim, i: nat)
    requires Shape(cfg, w, s) && i < |s.calls| && s.time <= cfg.maxTime
    requires AllBooks(s.calls, s.time, 0) && AllAfterParents(w, s.calls) && AllPlaces(cfg, s.calls)
    ensures var r := Release(cfg, w, s, i);
      AllBooks(r.calls, r.time, 0) && AllAfterParents(w, r.calls) && AllPlaces(cfg, r.calls)
  {
    hide ValidWorkload, Earliest, CriticalPathService, PriorityOf, ReleasedAfterParents, AllAfterParents, Books, Placed;
    ReleaseParents(cfg, w, s, i);
    var r := Release(cfg, w, s, i);
    if r != s {
      assert Books(s.calls[i], s.time);
      ReleaseBooks(cfg, w, s, i);
      forall j | 0 <= j < |r.calls| ensures Books(r.calls[j], r.time) && Placed(cfg, r.calls[j]) {
        assert Books(s.calls[j], s.time) && Placed(cfg, s.calls[j]);
      }
    }
  }

  lemma ReleaseBooks(cfg: Config, w: Workload, s: Sim, i: nat)
    requires Shape(cfg, w, s) && i < |s.calls| && Release(cfg, w, s, i) != s && Books(s.calls[i], s.time)
    ensures Books(Admitted(cfg, w, s, i), s.time) && Placed(cfg, Admitted(cfg, w, s, i))
  {
    hide ValidWorkload, Earliest, CriticalPathService, PriorityOf;
  }

  lemma ReleaseParents(cfg: Config, w: Workload, s: Sim, i: nat)
    requires Shape(cfg, w, s) && i < |s.calls| && s.time <= cfg.maxTime
    requires AllBooks(s.calls, s.time, 0) && AllAfterParents(w, s.calls)
    ensures AllAfterParents(w, Release(cfg, w, s, i).calls)
  {
    hide ValidConfig, CriticalPathService, PriorityOf, AssignQueue;
    var r := Release(cfg, w, s, i);
    if r != s {
      forall j | 0 <= j < |r.calls| ensures ReleasedAfterParents(w, r.calls, j) {
        assert ReleasedAfterParents(w, s.calls, j);
        if j == i {
          forall p | p in w.specs[i].parents ensures s.calls[p].status == Finished {
            assert Books(s.calls[p], s.time);
          }
        }
      }
    }
  }

  lemma {:induction false} ReleaseUpToInv(cfg: Config, w: Workload, s: Sim, k: nat)
    requires Inv(cfg, w, s) && k <= |s.calls| && s.time <= cfg.maxTime
    ensures Inv(cfg, w, ReleaseUpTo(cfg, w, s, k))
    ensures ReleaseUpTo(cfg, w, s, k).time == s.time && ReleaseUpTo(cfg, w, s, k).windows == s.windows
  {
    hide ValidWorkload, ValidConfig, Stamps, AllBooks, AllAfterParents, AllPlaces, AllSlots, WindowsOk, Admitted,
      Earliest;
    if k > 0 {
      ReleaseUpToInv(cfg, w, s, k - 1);
      ReleaseSlots(cfg, w, ReleaseUpTo(cfg, w, s, k - 1), k - 1);
      ReleaseAfter(cfg, w, ReleaseUpTo(cfg, w, s, k - 1), k - 1);
    }
  }

  lemma {:induction false} LastFinishSame(calls: seq<Call>, calls': seq<Call>, parents: seq<nat>)
    requires |calls| == |calls'| && parents != []
    requires forall p :: 0 <= p < |calls| ==> calls'[p].finish == calls[p].finish
    requires forall p :: p in parents ==> p < |calls| && calls[p].finish.Some?
    ensures LastFinish(calls', parents) == LastFinish(calls, parents)
  {
    assert parents[0] in parents && forall p :: p in parents[1..] ==> p in parents;
    if |parents| > 1 {
      LastFinishSame(calls, calls', parents[1..]);
    }
  }

  /** A release time depends on the finish times of the parents only. */
  lemma EarliestSame(cfg: Config, w: Workload, calls: seq<Call>, calls': seq<Call>, i: nat)
    requires i < |w.specs| == |calls| == |calls'| && w.specs[i].pid < |w.arrivals|
    requires forall p :: 0 <= p < |calls| ==> calls'[p].finish == calls[p].finish
    ensures Earliest(cfg, w, calls', i) == Earliest(cfg, w, calls, i)
    ensures ParentsFinished(w, calls', i) == ParentsFinished(w, calls, i)
  {
    if w.specs[i].parents != [] && ParentsFinished(w, calls, i) {
      LastFinishSame(calls, calls', w.specs[i].parents);
    }
  }

  /** The release loop admits exactly the pending calls that are due, and touches no other call. */
  lemma {:induction false} ReleaseUpToCalls(cfg: Config, w: Workload, s: Sim, k: nat)
    requires Shape(cfg, w, s) && k <= |s.calls|
    ensures var r := ReleaseUpTo(cfg, w, s, k);
      && r.time == s.time && r.entries == s.entries && r.windows == s.windows && r.gantt == s.gantt
      && (forall i :: 0 <= i < |s.calls| ==> r.calls[i].finish == s.calls[i].finish)
      && (forall i :: 0 <= i < |s.calls| ==>
            if i < k && s.calls[i].status == Pending && Earliest(cfg, w, s.calls, i) <= s.time
            then r.calls[i].status == Queued && r.calls[i].ready == s.time
            else r.calls[i] == s.calls[i])
  {
    hide Shape, Earliest, Release;
    ShapeSizes(cfg, w, s);
    if k > 0 {
      ReleaseUpToCalls(cfg, w, s, k - 1);
      var mid := ReleaseUpTo(cfg, w, s, k - 1);
      ShapeSizes(cfg, w, mid);
      ReleaseCall(cfg, w, mid, k - 1);
      EarliestSame(cfg, w, s.calls, mid.calls, k - 1);
    }
  }

  lemma ReleaseCall(cfg: Config, w: Workload, s: Sim, i: nat)
    requires Shape(cfg, w, s) && i < |s.calls|
    ensures var r := Release(cfg, w, s, i);
      && r.time == s.time && r.entries == s.entries && r.windows == s.windows && r.gantt == s.gantt
      && |r.calls| == |s.calls|
      && r.calls[i].finish == s.calls[i].finish
      && (if s.calls[i].status == Pending && Earliest(cfg, w, s.calls, i) <= s.time
          then r.calls[i].status == Queued && r.calls[i].ready == s.time else r.calls[i] == s.calls[i])
      && (forall j :: 0 <= j < |s.calls| && j != i ==> r.calls[j] == s.calls[j])
  {
    hide ValidWorkload, ValidConfig, Earliest, CriticalPathService, AssignQueue, PriorityOf;
  }

  // ---- Fill ----------------------------------------------------------------------

  lemma OrderPart(calls: seq<Call>, list: seq<nat>, from: nat, to: nat)
    requires from <= to <= |list| && InOrder(calls, list)
    ensures InOrder(calls, list[from..to])
  {
  }

  /** Filling moves the head of the prefetched list to the tail of the running list. */
  lemma FillLists(cfg: Config, calls: seq<Call>, counter: nat, e: nat, time: int)
    requires Stamps(calls, counter)
    requires InOrder(calls, RunningOn(calls, e) + PrefetchedOn(calls, e))
    ensures var r := Fill(calls, e, cfg.batch, time);
      var k := |FillList(calls, e, cfg.batch)|;
      && Stamps(r, counter)
      && RunningOn(r, e) == RunningOn(calls, e) + PrefetchedOn(calls, e)[..k]
      && PrefetchedOn(r, e) == PrefetchedOn(calls, e)[k..]
      && InOrder(r, RunningOn(calls, e) + PrefetchedOn(calls, e))
  {
    hide Sel, Fill, KeyLess;
    var r := Fill(calls, e, cfg.batch, time);
    var run, pre := RunningOn(calls, e), PrefetchedOn(calls, e);
    var k := |FillList(calls, e, cfg.batch)|;
    assert FillList(calls, e, cfg.batch) == pre[..k];
    assert Stamps(r, counter);
    OrderStart(calls, r, run + pre, pre[..k], time);
    OrderPart(r, run + pre, 0, |run| + k);
    OrderPart(r, run + pre, |run| + k, |run + pre|);
    assert (run + pre)[0..|run| + k] == run + pre[..k] && (run + pre)[|run| + k..|run + pre|] == pre[k..];
    SelFacts(calls, counter, e, {Prefetched});
    SplitMembers(pre, k);
    SelIs(r, counter, e, {Running}, run + pre[..k]);
    SelIs(r, counter, e, {Prefetched}, pre[k..]);
  }

  lemma OrderStart(calls: seq<Call>, calls': seq<Call>, list: seq<nat>, started: seq<nat>, time: int)
    requires |calls'| == |calls| && InOrder(calls, list)
    requires forall i :: 0 <= i < |calls| ==> calls'[i] == if i in started then StartCall(calls[i], time) else calls[i]
    ensures InOrder(calls', list)
  {
    OrderSame(calls, calls', list);
  }

  lemma SplitMembers<T>(s: seq<T>, k: nat)
    requires NoDup(s) && k <= |s|
    ensures forall x :: x in s[k..] <==> x in s && x !in s[..k]
  {
    assert s == s[..k] + s[k..];
  }

  lemma FillSlots(cfg: Config, calls: seq<Call>, counter: nat, e: nat, time: int)
    requires Stamps(calls, counter)
    requires InOrder(calls, RunningOn(calls, e) + PrefetchedOn(calls, e))
    requires |RunningOn(calls, e)| <= cfg.batch
    requires |RunningOn(calls, e)| + |PrefetchedOn(calls, e)| <= cfg.batch + cfg.over
    ensures Stamps(Fill(calls, e, cfg.batch, time), counter)
    ensures Slots(cfg, Fill(calls, e, cfg.batch, time), e)
  {
    hide Sel, Fill, KeyLess, InOrder, Stamps;
    FillLists(cfg, calls, counter, e, time);
    var run, pre := RunningOn(calls, e), PrefetchedOn(calls, e);
    var k := |FillList(calls, e, cfg.batch)|;
    assert (run + pre[..k]) + pre[k..] == run + pre;
  }

  /** Where nobody is waiting for a free slot, filling does nothing. */
  lemma FillIdle(cfg: Config, calls: seq<Call>, e: nat, time: int)
    requires Slots(cfg, calls, e)
    ensures Fill(calls, e, cfg.batch, time) == calls
  {
    hide Sel;
  }

  // ---- Refresh -------------------------------------------------------------------

  /** The levels that one call hops through in a refresh of its engine. */
  function HopsAt(cfg: Config, w: Workload, calls: seq<Call>, entries: seq<Entry>, i: nat): seq<nat>
    requires |cfg.quanta| > 0 && i < |calls| == |w.specs| && w.specs[i].pid < |entries|
  {
    HopsOf(cfg, calls[i], entries[w.specs[i].pid])
  }

  /** The keys a refresh hands out: untouched calls keep theirs, moved calls get a fresh stamp on their last level. */
  lemma RefreshedKeysFacts(cfg: Config, w: Workload, calls: seq<Call>, entries: seq<Entry>, e: nat, counter: nat)
    requires |cfg.quanta| > 0 && |calls| == |w.specs|
    requires forall i :: 0 <= i < |w.specs| ==> w.specs[i].pid < |entries|
    requires Stamps(calls, counter)
    ensures var keys := RefreshedKeys(cfg, w, calls, entries, e, counter);
      && counter <= keys.1 && Stamped(keys.0, keys.1)
      && (forall i :: 0 <= i < |calls| && LiveOn(calls[i], e) ==>
            var hops := HopsAt(cfg, w, calls, entries, i);
            if hops == [] then keys.0[i] == Place(calls[i].queue, calls[i].order)
            else counter < keys.0[i].order <= keys.1 && keys.0[i].queue == hops[|hops| - 1])
  {
    hide Sel, Stamps, HopsOf, Promoted, InOrder, PlacesOf;
    var hops, line, p := EngineHops(cfg, w, calls, entries, e), Line(calls, e), PlacesOf(calls, e);
    PlacesFacts(calls, e);
    SelFacts(calls, counter, e, LIVE);
    StampsPlaces(calls, counter, e);
    RefreshStamped(p, line, hops, counter);
    RefreshKeysResult(p, line, hops, counter);
  }

  lemma PlacesFacts(calls: seq<Call>, e: nat)
    ensures var p := PlacesOf(calls, e);
      && (forall i: nat :: i in p <==> i < |calls| && LiveOn(calls[i], e))
      && (forall i: nat :: i in p ==> p[i] == Place(calls[i].queue, calls[i].order))
  {
  }

  lemma RefreshStamps(cfg: Config, w: Workload, calls: seq<Call>, entries: seq<Entry>, e: nat, counter: nat)
    requires |cfg.quanta| > 0 && |calls| == |w.specs|
    requires forall i :: 0 <= i < |w.specs| ==> w.specs[i].pid < |entries|
    requires Stamps(calls, counter)
    ensures Stamps(Refreshed(cfg, w, calls, entries, e, counter), RefreshedKeys(cfg, w, calls, entries, e, counter).1)
  {
    hide Sel, HopsOf, Promoted, InOrder, RefreshedKeys, Refreshed;
    RefreshedKeysFacts(cfg, w, calls, entries, e, counter);
    var r, keys := Refreshed(cfg, w, calls, entries, e, counter), RefreshedKeys(cfg, w, calls, entries, e, counter);
    forall i, j | 0 <= i < j < |calls| && Live(calls[i]) && Live(calls[j]) ensures r[i].order != r[j].order {
      if LiveOn(calls[i], e) && LiveOn(calls[j], e) {
        assert keys.0[i].order != keys.0[j].order;
      }
    }
  }

  // ---- Selection -----------------------------------------------------------------

  /** After selection the line is cut into running, prefetched and queued calls, and nothing else moved. */
  lemma SelectLists(cfg: Config, calls: seq<Call>, counter: nat, e: nat, time: int)
    requires Stamps(calls, counter)
    ensures var r, line := Selected(cfg, calls, e, time), Line(calls, e);
      && Stamps(r, counter) && Line(r, e) == line
      && RunningOn(r, e) == line[..RunCount(cfg, line)]
      && PrefetchedOn(r, e) == line[RunCount(cfg, line)..HoldCount(cfg, line)]
      && InOrder(r, line)
  {
    hide Sel, Selected, KeyLess, Victims, Stamps, Line;
    var r, line := Selected(cfg, calls, e, time), Line(calls, e);
    var run, hold := RunCount(cfg, line), HoldCount(cfg, line);
    SelectKeys(cfg, calls, counter, e, time);
    SelectStatus(cfg, calls, counter, e, time);
    LineInOrder(calls, counter, e);
    OrderSame(calls, r, line);
    hide InOrder, RunCount, HoldCount;
    OrderPart(r, line, 0, run);
    OrderPart(r, line, run, hold);
    assert line[0..run] == line[..run];
    SelIs(r, counter, e, {Running}, line[..run]);
    SelIs(r, counter, e, {Prefetched}, line[run..hold]);
    SelIs(r, counter, e, LIVE, line);
    LineIs(r, e);
  }

  lemma LineInOrder(calls: seq<Call>, counter: nat, e: nat)
    requires Stamps(calls, counter)
    ensures InOrder(calls, Line(calls, e)) && NoDup(Line(calls, e))
    ensures forall i :: i in Line(calls, e) <==> 0 <= i < |calls| && LiveOn(calls[i], e)
  {
    SelFacts(calls, counter, e, LIVE);
  }

  lemma LineIs(calls: seq<Call>, e: nat)
    ensures Line(calls, e) == Sel(calls, e, LIVE) && RunningOn(calls, e) == Sel(calls, e, {Running})
      && PrefetchedOn(calls, e) == Sel(calls, e, {Prefetched})
  {
  }

  /** Who runs, who is prefetched and who is live after a selection. */
  lemma SelectStatus(cfg: Config, calls: seq<Call>, counter: nat, e: nat, time: int)
    requires Stamps(calls, counter)
    ensures var r, line := Selected(cfg, calls, e, time), Line(calls, e);
      var run, hold := RunCount(cfg, line), HoldCount(cfg, line);
      && (forall i :: i in line[..run] <==> 0 <= i < |r| && r[i].engine == e && r[i].status in {Running})
      && (forall i :: i in line[run..hold] <==> 0 <= i < |r| && r[i].engine == e && r[i].status in {Prefetched})
      && (forall i :: i in line <==> 0 <= i < |r| && r[i].engine == e && r[i].status in LIVE)
  {
    hide Sel, Selected, Victims, Stamps, Line, InOrder;
    var r, line := Selected(cfg, calls, e, time), Line(calls, e);
    var run, hold := RunCount(cfg, line), HoldCount(cfg, line);
    LineInOrder(calls, counter, e);
    SplitMembers(line, run);
    SplitMembers(line[..hold], run);
    assert line[..hold][..run] == line[..run] && line[..hold][run..] == line[run..hold];
    SplitMembers(line, hold);
    VictimsAreLive(cfg, calls, e);
  }

  lemma SelectedKeeps(cfg: Config, line: seq<nat>, victims: seq<nat>, c: Call, i: nat, time: int)
    requires i in line ==> Live(c)
    requires i in victims ==> i in line
    ensures var r := SelectedCall(cfg, line, victims, c, i, time);
      (Live(c) <==> Live(r)) && r.engine == c.engine && r.queue == c.queue && r.order == c.order
        && (i !in line ==> r == c)
  {
    var run, hold := RunCount(cfg, line), HoldCount(cfg, line);
    assert line[..run] + line[run..hold] + line[hold..] == line;
  }

  lemma SelectKeys(cfg: Config, calls: seq<Call>, counter: nat, e: nat, time: int)
    requires Stamps(calls, counter)
    ensures var r := Selected(cfg, calls, e, time);
      && Stamps(r, counter)
      && (forall i :: 0 <= i < |calls| ==>
           && (Live(calls[i]) <==> Live(r[i])) && r[i].engine == calls[i].engine
           && r[i].queue == calls[i].queue && r[i].order == calls[i].order
           && (!LiveOn(calls[i], e) ==> r[i] == calls[i]))
  {
    hide Sel, Selected, Victims, SelectedCall, HoldCount;
    VictimsAreLive(cfg, calls, e);
    forall i | 0 <= i < |calls| {
      SelectedKeeps(cfg, Line(calls, e), Victims(cfg, calls, e), calls[i], i, time);
    }
  }

  lemma VictimsAreLive(cfg: Config, calls: seq<Call>, e: nat)
    ensures forall i :: i in Victims(cfg, calls, e) <==>
      i in Line(calls, e)[HoldCount(cfg, Line(calls, e))..] && i < |calls| && Resident(calls[i])
    ensures forall i :: i in Victims(cfg, calls, e) ==> i in Line(calls, e)
  {
    hide Sel;
    FilterMembers(Line(calls, e)[HoldCount(cfg, Line(calls, e))..], (i: nat) => i < |calls| && Resident(calls[i]));
  }

  lemma SelectSlots(cfg: Config, calls: seq<Call>, counter: nat, e: nat, time: int)
    requires Stamps(calls, counter)
    ensures Slots(cfg, Selected(cfg, calls, e, time), e)
  {
    hide Sel, Selected, KeyLess, Victims, Stamps;
    SelectLists(cfg, calls, counter, e, time);
    var r, line := Selected(cfg, calls, e, time), Line(calls, e);
    var run, hold := RunCount(cfg, line), HoldCount(cfg, line);
    assert line[..run] + line[run..hold] == line[..hold] == line[0..hold];
    OrderPart(r, line, 0, hold);
  }

  // ---- Schedule ------------------------------------------------------------------

  /** What scheduling never touches: a call keeps its engine, its costs served so far and its history. */
  predicate SchedulingKeeps(c: Call, c': Call) {
    && (c'.status == c.status || (Live(c) && Live(c')))
    && c'.engine == c.engine && c'.model == c.model && c'.remaining == c.remaining && c'.executed == c.executed
    && c'.sched == c.sched && c'.schedLeft == c.schedLeft && c'.wait == c.wait
    && c'.ready == c.ready && c'.finish == c.finish && c'.priority == c.priority && c'.cps == c.cps
    && c.swapLeft <= c'.swapLeft && c'.swap - c'.swapLeft == c.swap - c.swapLeft
    && (c.start.Some? ==> c'.start == c.start)
    && (Live(c) && c'.status == Running ==> c'.start.Some?)
  }

  lemma RefreshKeeps(cfg: Config, w: Workload, calls: seq<Call>, entries: seq<Entry>, e: nat, counter: nat, i: nat)
    requires |cfg.quanta| > 0 && |calls| == |w.specs|
    requires forall i :: 0 <= i < |w.specs| ==> w.specs[i].pid < |entries|
    requires Stamps(calls, counter) && i < |calls| && Placed(cfg, calls[i])
    requires calls[i].status == Running ==> calls[i].start.Some?
    ensures var c := Refreshed(cfg, w, calls, entries, e, counter)[i];
      SchedulingKeeps(calls[i], c) && c.status == calls[i].status && Placed(cfg, c)
        && (!LiveOn(calls[i], e) ==> c == calls[i])
  {
    hide Sel, Promoted, InOrder, RefreshedKeys, Refreshed, Stamps;
    RefreshedKeysFacts(cfg, w, calls, entries, e, counter);
  }

  lemma SelectKeeps(cfg: Config, calls: seq<Call>, e: nat, time: int, i: nat)
    requires i < |calls| && (calls[i].status == Running ==> calls[i].start.Some?)
    ensures SchedulingKeeps(calls[i], Selected(cfg, calls, e, time)[i])
    ensures Selected(cfg, calls, e, time)[i].queue == calls[i].queue
    ensures !LiveOn(calls[i], e) ==> Selected(cfg, calls, e, time)[i] == calls[i]
  {
    hide Sel, Selected, Victims;
    VictimsAreLive(cfg, calls, e);
    var line := Line(calls, e);
    assert i in line[..RunCount(cfg, line)] || i in line[RunCount(cfg, line)..HoldCount(cfg, line)] ==> i in line;
  }

  lemma ScheduleKeeps(cfg: Config, w: Workload, s: Sim, e: nat, i: nat)
    requires Shape(cfg, w, s) && e < cfg.engines && i < |s.calls|
    requires Stamps(s.calls, s.counter) && AllPlaces(cfg, s.calls) && AllSlots(cfg, s.calls)
    requires forall i :: 0 <= i < |s.calls| && s.calls[i].status == Running ==> s.calls[i].start.Some?
    ensures var c := ScheduleEngine(cfg, w, s, e).calls[i];
      SchedulingKeeps(s.calls[i], c) && Placed(cfg, c) && (!LiveOn(s.calls[i], e) ==> c == s.calls[i])
  {
    hide Fill, Refreshed, Selected, RefreshedKeys, Stamps, Sel, ValidConfig, ValidWorkload, AllSlots;
    SlotsAt(cfg, s.calls, e);
    FillIdle(cfg, s.calls, e, s.time);
    RefreshStart(cfg, w, s, e);
    RefreshKeeps(cfg, w, s.calls, s.entries, e, s.counter, i);
    SelectKeeps(cfg, Refreshed(cfg, w, s.calls, s.entries, e, s.counter), e, s.time, i);
  }

  lemma SlotsAt(cfg: Config, calls: seq<Call>, e: nat)
    requires AllSlots(cfg, calls) && e < cfg.engines
    ensures Slots(cfg, calls, e)
  {
  }

  lemma RefreshStart(cfg: Config, w: Workload, s: Sim, e: nat)
    requires Shape(cfg, w, s)
    ensures |cfg.quanta| > 0 && forall i :: 0 <= i < |w.specs| ==> w.specs[i].pid < |s.entries| == |w.arrivals|
  {
  }

  /** Scheduling one engine keeps stamps distinct and every engine's slots in order. */
  lemma ScheduleSlots(cfg: Config, w: Workload, s: Sim, e: nat)
    requires Shape(cfg, w, s) && e < cfg.engines
    requires Stamps(s.calls, s.counter) && AllPlaces(cfg, s.calls) && AllSlots(cfg, s.calls)
    requires forall i :: 0 <= i < |s.calls| && s.calls[i].status == Running ==> s.calls[i].start.Some?
    ensures var r := ScheduleEngine(cfg, w, s, e); Stamps(r.calls, r.counter) && AllSlots(cfg, r.calls)
  {
    hide Fill, Refreshed, Selected, RefreshedKeys, Stamps, Sel, ValidConfig, ValidWorkload, AllSlots, Slots,
      SchedulingKeeps;
    SlotsAt(cfg, s.calls, e);
    FillIdle(cfg, s.calls, e, s.time);
    RefreshStart(cfg, w, s, e);
    var r := ScheduleEngine(cfg, w, s, e);
    RefreshStamps(cfg, w, s.calls, s.entries, e, s.counter);
    var refreshed, counter := Refreshed(cfg, w, s.calls, s.entries, e, s.counter),
      RefreshedKeys(cfg, w, s.calls, s.entries, e, s.counter).1;
    SelectLists(cfg, refreshed, counter, e, s.time);
    SelectSlots(cfg, refreshed, counter, e, s.time);
    forall d | 0 <= d < cfg.engines && d != e ensures Slots(cfg, r.calls, d) {
      SlotsAt(cfg, s.calls, d);
      OtherSlots(cfg, w, s, e, d);
    }
    assert Slots(cfg, r.calls, e);
    SlotsAll(cfg, r.calls);
  }

  lemma SlotsAll(cfg: Config, calls: seq<Call>)
    requires forall e :: 0 <= e < cfg.engines ==> Slots(cfg, calls, e)
    ensures AllSlots(cfg, calls)
  {
  }

  lemma OtherSlots(cfg: Config, w: Workload, s: Sim, e: nat, d: nat)
    requires Shape(cfg, w, s) && e < cfg.engines && d < cfg.engines && d != e
    requires Stamps(s.calls, s.counter) && AllPlaces(cfg, s.calls) && AllSlots(cfg, s.calls)
    requires forall i :: 0 <= i < |s.calls| && s.calls[i].status == Running ==> s.calls[i].start.Some?
    requires Stamps(ScheduleEngine(cfg, w, s, e).calls, ScheduleEngine(cfg, w, s, e).counter)
    ensures Slots(cfg, ScheduleEngine(cfg, w, s, e).calls, d)
    ensures RunningOn(ScheduleEngine(cfg, w, s, e).calls, d) == RunningOn(s.calls, d)
  {
    hide ScheduleEngine, AllSlots, Slots, Sel, Stamps, ValidConfig, ValidWorkload;
    SlotsAt(cfg, s.calls, d);
    var r := ScheduleEngine(cfg, w, s, e);
    forall i | 0 <= i < |s.calls| && s.calls[i].engine == d ensures r.calls[i] == s.calls[i] {
      ScheduleKeeps(cfg, w, s, e, i);
    }
    forall i | 0 <= i < |s.calls| ensures r.calls[i].engine == s.calls[i].engine {
      ScheduleKeeps(cfg, w, s, e, i);
    }
    SlotsSame(cfg, s.calls, r.calls, s.counter, r.counter, d);
  }

  lemma BooksStart(calls: seq<Call>, time: int, k: nat)
    requires AllBooks(calls, time, k)
    ensures forall i :: 0 <= i < |calls| && calls[i].status == Running ==> calls[i].start.Some?
    ensures forall i :: 0 <= i < |calls| ==> (calls[i].finish.Some? <==> calls[i].status == Finished)
  {
    forall i | 0 <= i < |calls|
      ensures calls[i].status == Running ==> calls[i].start.Some?
      ensures calls[i].finish.Some? <==> calls[i].status == Finished
    {
      assert Books(calls[i], if calls[i].engine < k then time + 1 else time);
    }
  }

  lemma ScheduleInv(cfg: Config, w: Workload, s: Sim, e: nat)
    requires Inv(cfg, w, s) && e < cfg.engines
    ensures Inv(cfg, w, ScheduleEngine(cfg, w, s, e))
    ensures ScheduleEngine(cfg, w, s, e).time == s.time
    ensures ScheduleEngine(cfg, w, s, e).entries == s.entries && ScheduleEngine(cfg, w, s, e).gantt == s.gantt
  {
    hide AllSlots, Slots, Sel, Stamps, ValidConfig, ValidWorkload, Fill, Refreshed, Selected, RefreshedKeys;
    BooksStart(s.calls, s.time, 0);
    ScheduleSlots(cfg, w, s, e);
    var r := ScheduleEngine(cfg, w, s, e);
    forall i | 0 <= i < |s.calls| ensures SchedulingKeeps(s.calls[i], r.calls[i]) && Placed(cfg, r.calls[i]) {
      ScheduleKeeps(cfg, w, s, e, i);
    }
    KeepsBooks(s.calls, r.calls, s.time);
    RefreshStart(cfg, w, s, e);
    KeepsParents(w, s.calls, r.calls);
  }

  lemma KeepsBooks(calls: seq<Call>, calls': seq<Call>, time: int)
    requires |calls'| == |calls| && AllBooks(calls, time, 0)
    requires forall i :: 0 <= i < |calls| ==> SchedulingKeeps(calls[i], calls'[i])
    requires forall i :: 0 <= i < |calls| && !Live(calls[i]) ==> calls'[i] == calls[i]
    ensures AllBooks(calls', time, 0)
  {
    forall i | 0 <= i < |calls| ensures Books(calls'[i], time) {
      assert Books(calls[i], time) && SchedulingKeeps(calls[i], calls'[i]);
    }
  }

  lemma KeepsParents(w: Workload, calls: seq<Call>, calls': seq<Call>)
    requires |w.specs| == |calls| == |calls'| && forall i :: 0 <= i < |w.specs| ==> w.specs[i].pid < |w.arrivals|
    requires AllAfterParents(w, calls)
    requires forall i :: 0 <= i < |calls| ==> SchedulingKeeps(calls[i], calls'[i])
    ensures AllAfterParents(w, calls')
  {
    forall i | 0 <= i < |calls| ensures ReleasedAfterParents(w, calls', i) {
      assert ReleasedAfterParents(w, calls, i) && SchedulingKeeps(calls[i], calls'[i]);
    }
  }

  lemma {:induction false} ScheduleUpToInv(cfg: Config, w: Workload, s: Sim, k: nat)
    requires Inv(cfg, w, s) && k <= cfg.engines
    ensures var r := ScheduleUpTo(cfg, w, s, k);
      Inv(cfg, w, r) && r.time == s.time && r.entries == s.entries && r.gantt == s.gantt
  {
    hide *;
    InvShape(cfg, w, s);
    ScheduleUnroll(cfg, w, s, k);
    if k > 0 {
      ScheduleUpToInv(cfg, w, s, k - 1);
      ScheduleInv(cfg, w, ScheduleUpTo(cfg, w, s, k - 1), k - 1);
    }
  }

  lemma InvShape(cfg: Config, w: Workload, s: Sim)
    requires Inv(cfg, w, s)
    ensures Shape(cfg, w, s)
  {
  }

  lemma ScheduleUnroll(cfg: Config, w: Workload, s: Sim, k: nat)
    requires Shape(cfg, w, s) && k <= cfg.engines
    ensures ScheduleUpTo(cfg, w, s, k) ==
      if k == 0 then s else ScheduleEngine(cfg, w, ScheduleUpTo(cfg, w, s, k - 1), k - 1)
  {
    hide Shape, ScheduleEngine;
  }

  // ---- Execute -------------------------------------------------------------------

  lemma TickedStamps(calls: seq<Call>, counter: nat, e: nat, time: int)
    requires Stamps(calls, counter)
    ensures Stamps(Ticked(calls, e, time), counter)
  {
    hide Ticked;
  }

  /** A tick removes the finished calls from the running list and leaves the prefetched list alone. */
  lemma TickedLists(cfg: Config, calls: seq<Call>, counter: nat, e: nat, time: int)
    requires Stamps(calls, counter) && Slots(cfg, calls, e)
    ensures var r := Ticked(calls, e, time);
      && Stamps(r, counter)
      && InOrder(r, RunningOn(r, e) + PrefetchedOn(r, e))
      && (forall i :: i in RunningOn(r, e) <==> i in RunningOn(calls, e) && r[i].status == Running)
      && |RunningOn(r, e)| <= |RunningOn(calls, e)| && PrefetchedOn(r, e) == PrefetchedOn(calls, e)
  {
    hide Ticked, Sel, KeyLess, Stamps;
    var r := Ticked(calls, e, time);
    TickedStamps(calls, counter, e, time);
    TickedStatus(calls, e, time);
    SelSame(calls, r, counter, counter, e, {Prefetched});
    SelFacts(r, counter, e, {Running});
    SelFacts(calls, counter, e, {Running});
    SelFacts(r, counter, e, {Prefetched});
    NoDupSubLength(RunningOn(r, e), RunningOn(calls, e));
    var run, pre, run' := RunningOn(calls, e), PrefetchedOn(calls, e), RunningOn(r, e);
    forall a, b | a in run' && b in pre ensures KeyLess(r[a], r[b]) {
      AcrossOrder(calls, run, pre, a, b);
      SameKey(calls[a], r[a], calls[b], r[b]);
    }
    OrderJoin(r, run', pre);
  }

  lemma SameKey(a: Call, a': Call, b: Call, b': Call)
    requires a'.queue == a.queue && a'.order == a.order && b'.queue == b.queue && b'.order == b.order
    ensures KeyLess(a', b') == KeyLess(a, b)
  {
  }

  lemma TickedStatus(calls: seq<Call>, e: nat, time: int)
    ensures var r := Ticked(calls, e, time);
      forall i :: 0 <= i < |calls| ==>
        && r[i].engine == calls[i].engine && r[i].queue == calls[i].queue && r[i].order == calls[i].order
        && (r[i].status == calls[i].status
           || (calls[i].status == Running && r[i].status == Finished && calls[i].engine == e))
  {
    hide Ticked;
  }

  lemma AcrossOrder(calls: seq<Call>, low: seq<nat>, high: seq<nat>, a: nat, b: nat)
    requires InOrder(calls, low + high) && a in low && b in high
    ensures a < |calls| && b < |calls| && KeyLess(calls[a], calls[b])
  {
    hide KeyLess;
    var j :| 0 <= j < |low| && low[j] == a;
    var k :| 0 <= k < |high| && high[k] == b;
    assert (low + high)[j] == a && (low + high)[|low| + k] == b;
  }

  lemma OrderJoin(calls: seq<Call>, low: seq<nat>, high: seq<nat>)
    requires InOrder(calls, low) && InOrder(calls, high)
    requires forall a, b :: a in low && b in high ==> KeyLess(calls[a], calls[b])
    ensures InOrder(calls, low + high)
  {
    hide KeyLess;
    forall j, k | 0 <= j < k < |low + high| ensures KeyLess(calls[(low + high)[j]], calls[(low + high)[k]]) {
      if j < |low| && k >= |low| {
        assert low[j] in low && high[k - |low|] in high;
      }
    }
  }

  /** What a tick and the fill after it do to one call of engine `e`. */
  predicate TicksTo(c: Call, c': Call, time: int) {
    c' == TickCall(c, time) || (c.status == Prefetched && c' == StartCall(TickCall(c, time), time + 1))
  }

  lemma TickCallKeeps(cfg: Config, w: Workload, s: Sim, e: nat, i: nat)
    requires Shape(cfg, w, s) && e < cfg.engines && i < |s.calls|
    ensures var c := TickEngine(cfg, w, s, e).calls[i];
      if LiveOn(s.calls[i], e) then TicksTo(s.calls[i], c, s.time) else c == s.calls[i]
  {
    hide Shape, Sel, Ticked, Fill, FillList, Settle, Rows;
  }

  lemma TickSlots(cfg: Config, w: Workload, s: Sim, e: nat)
    requires Shape(cfg, w, s) && e < cfg.engines
    requires Stamps(s.calls, s.counter) && AllSlots(cfg, s.calls)
    ensures var r := TickEngine(cfg, w, s, e);
      r.counter == s.counter && Stamps(r.calls, r.counter) && AllSlots(cfg, r.calls)
  {
    hide Shape, Sel, Ticked, Fill, Settle, Rows, Slots, AllSlots, Stamps, InOrder;
    var ticked := Ticked(s.calls, e, s.time);
    SlotsAt(cfg, s.calls, e);
    TickedLists(cfg, s.calls, s.counter, e, s.time);
    SlotSizes(cfg, s.calls, e);
    FillSlots(cfg, ticked, s.counter, e, s.time + 1);
    var r := TickEngine(cfg, w, s, e);
    forall d | 0 <= d < cfg.engines && d != e ensures Slots(cfg, r.calls, d) {
      SlotsAt(cfg, s.calls, d);
      TickOthers(cfg, w, s, e, d);
      SlotsSame(cfg, s.calls, r.calls, s.counter, s.counter, d);
    }
    SlotsAll(cfg, r.calls);
  }

  lemma SlotSizes(cfg: Config, calls: seq<Call>, e: nat)
    requires Slots(cfg, calls, e)
    ensures |RunningOn(calls, e)| <= cfg.batch
    ensures |RunningOn(calls, e)| + |PrefetchedOn(calls, e)| <= cfg.batch + cfg.over
  {
  }

  lemma TickOthers(cfg: Config, w: Workload, s: Sim, e: nat, d: nat)
    requires Shape(cfg, w, s) && e < cfg.engines && d != e
    ensures var r := TickEngine(cfg, w, s, e);
      forall i :: 0 <= i < |s.calls| ==>
        r.calls[i].engine == s.calls[i].engine && (s.calls[i].engine == d ==> r.calls[i] == s.calls[i])
  {
    hide TickEngine, ValidConfig, ValidWorkload;
    var r := TickEngine(cfg, w, s, e);
    forall i | 0 <= i < |s.calls|
      ensures r.calls[i].engine == s.calls[i].engine && (s.calls[i].engine == d ==> r.calls[i] == s.calls[i])
    {
      TickCallKeeps(cfg, w, s, e, i);
    }
  }

  lemma TickBooks(cfg: Config, w: Workload, s: Sim, e: nat)
    requires Shape(cfg, w, s) && e < cfg.engines
    requires AllBooks(s.calls, s.time, e) && AllAfterParents(w, s.calls) && AllPlaces(cfg, s.calls)
    ensures var r := TickEngine(cfg, w, s, e);
      AllBooks(r.calls, s.time, e + 1) && AllAfterParents(w, r.calls) && AllPlaces(cfg, r.calls)
  {
    hide TickEngine, ValidConfig;
    var r := TickEngine(cfg, w, s, e);
    forall i | 0 <= i < |r.calls|
      ensures Books(r.calls[i], if r.calls[i].engine < e + 1 then s.time + 1 else s.time) && Placed(cfg, r.calls[i])
    {
      TickCallKeeps(cfg, w, s, e, i);
      assert Books(s.calls[i], if s.calls[i].engine < e then s.time + 1 else s.time) && Placed(cfg, s.calls[i]);
    }
    forall i | 0 <= i < |r.calls| ensures ReleasedAfterParents(w, r.calls, i) {
      TickCallKeeps(cfg, w, s, e, i);
      assert ReleasedAfterParents(w, s.calls, i);
      forall p | p in w.specs[i].parents && p < |s.calls| && s.calls[p].status == Finished
        ensures r.calls[p] == s.calls[p] {
        TickCallKeeps(cfg, w, s, e, p);
      }
    }
  }

  lemma TickInv(cfg: Config, w: Workload, s: Sim, e: nat)
    requires Midway(cfg, w, s, e) && e < cfg.engines
    ensures Midway(cfg, w, TickEngine(cfg, w, s, e), e + 1)
    ensures TickEngine(cfg, w, s, e).time == s.time
  {
    hide AllSlots, Stamps, AllBooks, AllAfterParents, AllPlaces, Sel, Ticked, Fill, Settle, Rows, ValidConfig,
      ValidWorkload;
    TickSlots(cfg, w, s, e);
    TickBooks(cfg, w, s, e);
  }

  lemma {:induction false} TickUpToInv(cfg: Config, w: Workload, s: Sim, k: nat)
    requires Inv(cfg, w, s) && k <= cfg.engines
    ensures Midway(cfg, w, TickUpTo(cfg, w, s, k), k) && TickUpTo(cfg, w, s, k).time == s.time
  {
    hide *;
    InvShape(cfg, w, s);
    TickUnroll(cfg, w, s, k);
    if k > 0 {
      TickUpToInv(cfg, w, s, k - 1);
      TickInv(cfg, w, TickUpTo(cfg, w, s, k - 1), k - 1);
    } else {
      InvMidway(cfg, w, s);
    }
  }

  lemma InvMidway(cfg: Config, w: Workload, s: Sim)
    ensures Inv(cfg, w, s) <==> Midway(cfg, w, s, 0)
  {
  }

  lemma TickUnroll(cfg: Config, w: Workload, s: Sim, k: nat)
    requires Shape(cfg, w, s) && k <= cfg.engines
    ensures TickUpTo(cfg, w, s, k) == if k == 0 then s else TickEngine(cfg, w, TickUpTo(cfg, w, s, k - 1), k - 1)
  {
    hide Shape, TickEngine;
  }

  // ---- Whole runs ----------------------------------------------------------------

  /** The clock may skip ahead only while nothing is live, so every book stays balanced. */
  lemma AdvanceInv(cfg: Config, w: Workload, s: Sim, time: int)
    requires Midway(cfg, w, s, cfg.engines)
    requires time == s.time + 1 || (s.time + 1 <= time && !Busy(s))
    ensures Inv(cfg, w, s.(time := time))
  {
    hide AllSlots, Slots, Stamps, Sel, AllAfterParents;
    forall i | 0 <= i < |s.calls| ensures Books(s.calls[i], time) {
      assert Books(s.calls[i], if s.calls[i].engine < cfg.engines then s.time + 1 else s.time)
        && Placed(cfg, s.calls[i]);
    }
  }

  lemma StepInv(cfg: Config, w: Workload, s: Sim)
    requires Inv(cfg, w, s) && s.time <= cfg.maxTime
    ensures Inv(cfg, w, Step(cfg, w, s))
    ensures s.time < Step(cfg, w, s).time
  {
    hide Inv, Shape, Midway, ReleaseUpTo, ScheduleUpTo, TickUpTo, AllFinished, Busy, NextRelease;
    InvShape(cfg, w, s);
    ReleaseUpToInv(cfg, w, s, |s.calls|);
    var released := ReleaseUpTo(cfg, w, s, |s.calls|);
    ScheduleUpToInv(cfg, w, released, cfg.engines);
    var scheduled := ScheduleUpTo(cfg, w, released, cfg.engines);
    TickUpToInv(cfg, w, scheduled, cfg.engines);
    var ticked := TickUpTo(cfg, w, scheduled, cfg.engines);
    AdvanceInv(cfg, w, ticked, NextTime(cfg, w, ticked, s.time + 1));
  }

  /** Every state of every run satisfies the invariant. */
  lemma {:induction false} ReachInv(cfg: Config, w: Workload, n: nat)
    requires ValidWorkload(w) && ValidConfig(cfg, w)
    ensures Inv(cfg, w, Reach(cfg, w, n))
  {
    hide ValidWorkload, ValidConfig, Inv, Init, Step, AllFinished;
    if n == 0 {
      InitInv(cfg, w);
    } else {
      ReachInv(cfg, w, n - 1);
      var s := Reach(cfg, w, n - 1);
      if !(AllFinished(s) || s.time > cfg.maxTime) {
        StepInv(cfg, w, s);
      }
    }
  }
}
