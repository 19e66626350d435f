/** The lists that an engine really keeps - one deque per level, a running list, a prefetched list - against the
 *  call records they index. */
module SimQueues {
  import opened Sequences
  import opened Levels
  import opened SimModel
  import opened SimInvariant
  import opened SimTermination

  datatype Engine = Engine(queues: seq<seq<nat>>, running: seq<nat>, prefetched: seq<nat>)

  function QueuedPlaces(calls: seq<Call>, e: nat): (p: Places<nat>)
    ensures forall i: nat :: i in p <==> i < |calls| && calls[i].engine == e && calls[i].status == Queued
    ensures forall i: nat :: i in p ==> p[i] == Place(calls[i].queue, calls[i].order)
  {
    map i: nat | i < |calls| && calls[i].engine == e && calls[i].status == Queued ::
      Place(calls[i].queue, calls[i].order)
  }

  /** The engine's lists are exactly what the call records say, each in the order (level, stamp). */
  ghost predicate EngineOk(cfg: Config, calls: seq<Call>, e: nat, engine: Engine) {
    && |engine.queues| == |cfg.quanta|
    && engine.running == RunningOn(calls, e) && engine.prefetched == PrefetchedOn(calls, e)
    && Agrees(engine.queues, QueuedPlaces(calls, e))
  }

  lemma QueuedStamped(calls: seq<Call>, counter: nat, e: nat)
    requires Stamps(calls, counter)
    ensures Stamped(QueuedPlaces(calls, e), counter)
  {
    var p := QueuedPlaces(calls, e);
    forall i, j | i in p && j in p && i != j ensures p[i].order != p[j].order {
      if i < j {} else { assert calls[j].order != calls[i].order; }
    }
  }

  /** An engine whose calls keep state and key keeps its lists. */
  lemma EngineSame(cfg: Config, calls: seq<Call>, calls': seq<Call>, counter: nat, counter': nat, e: nat,
                   engine: Engine)
    requires EngineOk(cfg, calls, e, engine) && Stamps(calls, counter) && Stamps(calls', counter')
      && |calls'| == |calls|
    requires forall i :: 0 <= i < |calls| ==> (LiveOn(calls[i], e) <==> LiveOn(calls'[i], e))
    requires forall i :: 0 <= i < |calls| && LiveOn(calls[i], e) ==>
      calls'[i].status == calls[i].status && calls'[i].queue == calls[i].queue && calls'[i].order == calls[i].order
    ensures EngineOk(cfg, calls', e, engine)
  {
    hide Sel, Stamps, Agrees;
    SelSame(calls, calls', counter, counter', e, {Running});
    SelSame(calls, calls', counter, counter', e, {Prefetched});
    assert QueuedPlaces(calls', e) == QueuedPlaces(calls, e);
  }

  /** Admission: the call goes to the tail of its level. */
  lemma EnqueueOk(cfg: Config, calls: seq<Call>, counter: nat, e: nat, engine: Engine, i: nat, c: Call)
    requires EngineOk(cfg, calls, e, engine) && Stamps(calls, counter) && i < |calls| && calls[i].status == Pending
    requires c.status == Queued && c.engine == e && c.order == counter + 1 && c.queue < |cfg.quanta|
    requires Stamps(calls[i := c], counter + 1)
    ensures EngineOk(cfg, calls[i := c], e, engine.(queues := Push(engine.queues, i, c.queue)))
  {
    hide Sel, Stamps, Agrees;
    SelSame(calls, calls[i := c], counter, counter + 1, e, {Running});
    SelSame(calls, calls[i := c], counter, counter + 1, e, {Prefetched});
    QueuedStamped(calls, counter, e);
    PushAgrees(engine.queues, QueuedPlaces(calls, e), i, c.queue, counter);
    assert QueuedPlaces(calls[i := c], e) == QueuedPlaces(calls, e)[i := Place(c.queue, c.order)];
  }

  /** Filling from the prefetched list. */
  lemma FillOk(cfg: Config, calls: seq<Call>, counter: nat, e: nat, engine: Engine, time: int)
    requires EngineOk(cfg, calls, e, engine) && Stamps(calls, counter)
    requires InOrder(calls, RunningOn(calls, e) + PrefetchedOn(calls, e))
    ensures var k := |FillList(calls, e, cfg.batch)|;
      k <= |engine.prefetched| &&
      EngineOk(cfg, Fill(calls, e, cfg.batch, time), e,
        engine.(running := engine.running + engine.prefetched[..k], prefetched := engine.prefetched[k..]))
  {
    hide Sel, Fill, Stamps, Agrees, InOrder;
    FillLists(cfg, calls, counter, e, time);
    FillQueued(calls, e, cfg.batch, time);
  }

  lemma FillQueued(calls: seq<Call>, e: nat, batch: nat, time: int)
    ensures QueuedPlaces(Fill(calls, e, batch, time), e) == QueuedPlaces(calls, e)
  {
    hide Sel, Fill, FillList;
    var r := Fill(calls, e, batch, time);
    forall i | 0 <= i < |calls|
      ensures r[i].engine == calls[i].engine && r[i].queue == calls[i].queue && r[i].order == calls[i].order
      ensures r[i].status == Queued <==> calls[i].status == Queued
    {
      if i in FillList(calls, e, batch) { assert i in PrefetchedOn(calls, e); }
    }
  }

  // ---- Reading and popping the deques --------------------------------------------

  /** `_pop_next_queued`: the head of the first nonempty level. */
  method PopNextQueued(queues: seq<seq<nat>>) returns (next: Option<nat>, rest: seq<seq<nat>>)
    ensures next.None? <==> Flatten(queues) == []
    ensures next.None? ==> rest == queues
    ensures next.Some? ==> |rest| == |queues| && Flatten(queues) == [next.value] + Flatten(rest)
    ensures next.Some? ==> exists q: nat :: HeadOf(queues, q, next.value) && rest == queues[q := queues[q][1..]]
  {
    for q := 0 to |queues|
      invariant forall j :: 0 <= j < q ==> queues[j] == []
    {
      if queues[q] != [] {
        rest := queues[q := queues[q][1..]];
        next := Some(queues[q][0]);
        FlattenHead(queues, q);
        assert HeadOf(queues, q, queues[q][0]);
        return;
      }
    }
    FlattenNone(queues);
    return None, queues;
  }

  predicate HeadOf(queues: seq<seq<nat>>, q: nat, i: nat) { q < |queues| && queues[q] != [] && queues[q][0] == i }

  lemma {:induction false} FlattenNone<I>(deques: seq<seq<I>>)
    requires forall q :: 0 <= q < |deques| ==> deques[q] == []
    ensures Flatten(deques) == []
  {
    if deques != [] {
      FlattenNone(deques[..|deques| - 1]);
    }
  }

  lemma {:induction false} FlattenHead<I>(deques: seq<seq<I>>, q: nat)
    requires q < |deques| && deques[q] != [] && forall j :: 0 <= j < q ==> deques[j] == []
    ensures Flatten(deques) == [deques[q][0]] + Flatten(deques[q := deques[q][1..]])
  {
    var n, rest := |deques| - 1, deques[q := deques[q][1..]];
    if q == n {
      FlattenNone(deques[..n]);
      assert rest[..n] == deques[..n];
    } else {
      FlattenHead(deques[..n], q);
      assert rest[..n] == deques[..n][q := deques[q][1..]];
    }
  }

  /** Popping the head keeps the deques in step with the keys of the calls that remain. */
  lemma PopAgrees(queues: seq<seq<nat>>, p: Places<nat>, q: nat, i: nat, counter: nat)
    requires Agrees(queues, p) && Stamped(p, counter) && HeadOf(queues, q, i)
    ensures i in p && Agrees(queues[q := queues[q][1..]], p - {i}) && Stamped(p - {i}, counter)
  {
    assert LevelOk(queues[q], p, q) && i in queues[q];
    TakeAgrees(queues, p, i, counter);
    assert Without(queues[q], i) == queues[q][1..];
  }

  // ---- The scheduling decision -----------------------------------------------------

  /** Every call of the engine sent back to the queues. */
  function Unseated(calls: seq<Call>, e: nat): (r: seq<Call>)
    ensures |r| == |calls|
    ensures forall i :: 0 <= i < |r| ==> r[i] == if LiveOn(calls[i], e) then calls[i].(status := Queued) else calls[i]
  {
    seq(|calls|, i requires 0 <= i < |calls| => if LiveOn(calls[i], e) then calls[i].(status := Queued) else calls[i])
  }

  lemma UnseatedPlaces(calls: seq<Call>, e: nat)
    ensures PlacesOf(Unseated(calls, e), e) == PlacesOf(calls, e) == QueuedPlaces(Unseated(calls, e), e)
  {
  }

  lemma UnseatedStamps(calls: seq<Call>, counter: nat, e: nat)
    requires Stamps(calls, counter)
    ensures Stamps(Unseated(calls, e), counter)
  {
  }

  /** Running, queued and prefetched calls together, sorted, are the line. */
  lemma CandidatesLine(cfg: Config, calls: seq<Call>, counter: nat, e: nat, engine: Engine)
    requires EngineOk(cfg, calls, e, engine) && Stamps(calls, counter)
    ensures var candidates := engine.running + (Flatten(engine.queues) + engine.prefetched);
      (forall i: nat :: i in candidates <==> i in PlacesOf(calls, e))
        && Sort(candidates, PlacesOf(calls, e)) == Line(calls, e)
  {
    hide Sel, Stamps, Agrees;
    var candidates, p := engine.running + (Flatten(engine.queues) + engine.prefetched), PlacesOf(calls, e);
    PlacesFacts(calls, e);
    QueuedStamped(calls, counter, e);
    QueueMembers(cfg, calls, counter, e, engine.queues);
    assert forall i: nat :: i in candidates <==> i in p;
    SelFacts(calls, counter, e, {Running});
    SelFacts(calls, counter, e, {Prefetched});
    CandidatesOnce(calls, e, engine, Flatten(engine.queues));
    StampsPlaces(calls, counter, e);
    SortSorted(candidates, p, counter);
    SortedLine(calls, counter, e, Sort(candidates, p));
  }

  lemma QueueMembers(cfg: Config, calls: seq<Call>, counter: nat, e: nat, queues: seq<seq<nat>>)
    requires Agrees(queues, QueuedPlaces(calls, e)) && Stamps(calls, counter)
    ensures NoDup(Flatten(queues))
    ensures forall i: nat :: i in Flatten(queues) <==> i < |calls| && calls[i].engine == e && calls[i].status == Queued
  {
    hide Stamps;
    FlattenSorted(queues, QueuedPlaces(calls, e));
    FlattenMembers(queues);
    var p := QueuedPlaces(calls, e);
    SortedNoDup(Flatten(queues), p);
    forall i: nat | i < |calls| && calls[i].engine == e && calls[i].status == Queued ensures i in Flatten(queues) {
      assert i in p && p[i].queue < |queues| && i in queues[p[i].queue];
    }
    forall i: nat | i in Flatten(queues) ensures i < |calls| && calls[i].engine == e && calls[i].status == Queued {
      assert i in p;
    }
  }

  lemma CandidatesOnce(calls: seq<Call>, e: nat, engine: Engine, queued: seq<nat>)
    requires NoDup(engine.running) && NoDup(queued) && NoDup(engine.prefetched)
    requires forall i: nat :: i in engine.running <==> i < |calls| && calls[i].engine == e && calls[i].status == Running
    requires forall i: nat :: i in queued <==> i < |calls| && calls[i].engine == e && calls[i].status == Queued
    requires forall i: nat :: i in engine.prefetched <==>
      i < |calls| && calls[i].engine == e && calls[i].status == Prefetched
    ensures NoDup(engine.running + (queued + engine.prefetched))
  {
    NoDupJoin(queued, engine.prefetched);
    NoDupJoin(engine.running, queued + engine.prefetched);
  }

  lemma NoDupJoin<T>(a: seq<T>, b: seq<T>)
    requires NoDup(a) && NoDup(b) && forall x :: x in a ==> x !in b
    ensures NoDup(a + b)
  {
    forall i, j | 0 <= i < j < |a + b| ensures (a + b)[i] != (a + b)[j] {
      if i < |a| && j >= |a| {
        assert a[i] in a && b[j - |a|] in b;
      }
    }
  }

  lemma SortedLine(calls: seq<Call>, counter: nat, e: nat, list: seq<nat>)
    requires Stamps(calls, counter) && (forall i: nat :: i in list <==> i in PlacesOf(calls, e))
      && Sorted(list, PlacesOf(calls, e))
    ensures Line(calls, e) == list
  {
    hide Sel, Stamps;
    var p := PlacesOf(calls, e);
    PlacesFacts(calls, e);
    forall j | 0 <= j < |list| ensures list[j] in p && list[j] < |calls| { assert list[j] in list; }
    forall j, k | 0 <= j < k < |list| ensures KeyLess(calls[list[j]], calls[list[k]]) {
      assert Before(p[list[j]], p[list[k]]);
    }
    SelIs(calls, counter, e, LIVE, list);
  }

  /** The call records after the refresh loop visited the first calls of the line: those carry the new keys. */
  ghost predicate RefreshedSoFar(cfg: Config, w: Workload, calls: seq<Call>, entries: seq<Entry>, e: nat,
                                 done: seq<nat>, keys: Places<nat>, now: seq<Call>)
    requires |cfg.quanta| > 0 && |calls| == |w.specs| && forall i :: 0 <= i < |w.specs| ==> w.specs[i].pid < |entries|
  {
    && |now| == |calls|
    && (forall i: nat :: i < |calls| && i in done && i in keys ==>
       now[i] == Requeued(cfg, calls[i], entries[w.specs[i].pid], keys[i]))
    && (forall i: nat :: i < |calls| && i !in done ==> now[i] == calls[i])
  }

  /** `should_preempt` and `demote`, then `_should_promote`: the hops of one call, one after the other. */
  lemma HopsUnrolled(cfg: Config, c: Call, entry: Entry)
    requires |cfg.quanta| > 0
    ensures var down, up := ShouldPreempt(cfg, c), Promoted(cfg, c, entry);
      HopsOf(cfg, c, entry) ==
        if down && up then [DemotedQueue(cfg, c.queue), 0] else if down then [DemotedQueue(cfg, c.queue)]
          else if up then [0] else []
  {
  }

  lemma HopDequesUnrolled(deques: seq<seq<nat>>, i: nat, from: nat, a: nat, b: nat)
    requires from < |deques| && a < |deques| && b < |deques|
    ensures HopDeques(deques, i, from, []) == deques
    ensures HopDeques(deques, i, from, [a]) == Push(Take(deques, i, from), i, a)
    ensures HopDeques(deques, i, from, [a, b]) == Push(Take(Push(Take(deques, i, from), i, a), i, a), i, b)
  {
    var once := Push(Take(deques, i, from), i, a);
    assert [a][1..] == [] && [a, b][1..] == [b] && [b][1..] == [];
    assert HopDeques(once, i, a, []) == once;
    assert HopDeques(once, i, a, [b]) == HopDeques(Push(Take(once, i, a), i, b), i, b, []);
  }

  /** Requeued, spelled out by the two tests of the refresh loop. */
  lemma RequeuedUnrolled(cfg: Config, c: Call, entry: Entry, place: Place)
    requires |cfg.quanta| > 0
    ensures var down, up := ShouldPreempt(cfg, c), Promoted(cfg, c, entry);
      Requeued(cfg, c, entry, place) ==
        if up then c.(queue := place.queue, order := place.order, quantum := cfg.quanta[0], waitWindow := 0,
          runWindow := 0)
        else if down then c.(queue := place.queue, order := place.order,
          quantum := cfg.quanta[DemotedQueue(cfg, c.queue)])
        else c.(queue := place.queue, order := place.order)
  {
  }

  /** Refreshing looks at no call's seat. */
  lemma RefreshUnseated(cfg: Config, w: Workload, calls: seq<Call>, counter: nat, entries: seq<Entry>, e: nat)
    requires |cfg.quanta| > 0 && |calls| == |w.specs| && (forall i :: 0 <= i < |w.specs| ==> w.specs[i].pid < |entries|)
    requires Stamps(calls, counter)
    ensures EngineHops(cfg, w, Unseated(calls, e), entries, e) == EngineHops(cfg, w, calls, entries, e)
    ensures Line(Unseated(calls, e), e) == Line(calls, e)
    ensures RefreshedKeys(cfg, w, Unseated(calls, e), entries, e, counter)
      == RefreshedKeys(cfg, w, calls, entries, e, counter)
    ensures Refreshed(cfg, w, Unseated(calls, e), entries, e, counter)
      == Unseated(Refreshed(cfg, w, calls, entries, e, counter), e)
  {
    hide Sel, Stamps, RefreshKeys;
    UnseatedStamps(calls, counter, e);
    UnseatedPlaces(calls, e);
    SelSame(calls, Unseated(calls, e), counter, counter, e, LIVE);
    SameHops(cfg, w, calls, entries, e);
    var a, b := Refreshed(cfg, w, Unseated(calls, e), entries, e, counter),
      Unseated(Refreshed(cfg, w, calls, entries, e, counter), e);
    forall i | 0 <= i < |calls| ensures a[i] == b[i] {
      SameRequeue(cfg, w, calls, entries, e, counter, i);
    }
  }

  lemma SameHops(cfg: Config, w: Workload, calls: seq<Call>, entries: seq<Entry>, e: nat)
    requires |cfg.quanta| > 0 && |calls| == |w.specs| && (forall i :: 0 <= i < |w.specs| ==> w.specs[i].pid < |entries|)
    ensures EngineHops(cfg, w, Unseated(calls, e), entries, e) == EngineHops(cfg, w, calls, entries, e)
  {
    var a, b := EngineHops(cfg, w, Unseated(calls, e), entries, e), EngineHops(cfg, w, calls, entries, e);
    assert forall i: nat :: i in a <==> i in b;
    forall i: nat | i in a ensures a[i] == b[i] {
      SeatFree(cfg, calls[i], entries[w.specs[i].pid]);
    }
  }

  lemma SeatFree(cfg: Config, c: Call, entry: Entry)
    requires |cfg.quanta| > 0
    ensures HopsOf(cfg, c.(status := Queued), entry) == HopsOf(cfg, c, entry)
    ensures forall place :: Requeued(cfg, c.(status := Queued), entry, place) == Requeued(cfg, c, entry,
      place).(status := Queued)
  {
  }

  lemma SameRequeue(cfg: Config, w: Workload, calls: seq<Call>, entries: seq<Entry>, e: nat, counter: nat, i: nat)
    requires |cfg.quanta| > 0 && |calls| == |w.specs| && (forall i :: 0 <= i < |w.specs| ==> w.specs[i].pid < |entries|)
    requires i < |calls|
    requires RefreshedKeys(cfg, w, Unseated(calls, e), entries, e, counter)
      == RefreshedKeys(cfg, w, calls, entries, e, counter)
    ensures Refreshed(cfg, w, Unseated(calls, e), entries, e, counter)[i]
      == Unseated(Refreshed(cfg, w, calls, entries, e, counter), e)[i]
  {
    hide Sel, RefreshedKeys, Requeued;
    SeatFree(cfg, calls[i], entries[w.specs[i].pid]);
    RequeuedLive(cfg, w, calls, entries, e, counter, i);
  }

  lemma RequeuedLive(cfg: Config, w: Workload, calls: seq<Call>, entries: seq<Entry>, e: nat, counter: nat, i: nat)
    requires |cfg.quanta| > 0 && |calls| == |w.specs| && (forall i :: 0 <= i < |w.specs| ==> w.specs[i].pid < |entries|)
    requires i < |calls|
    ensures LiveOn(Refreshed(cfg, w, calls, entries, e, counter)[i], e) == LiveOn(calls[i], e)
  {
    hide Sel, RefreshedKeys, Refreshed, HopsOf, Promoted;
  }

  /** The calls of the resident list that selection leaves out are the victims. */
  lemma VictimsAre(cfg: Config, calls: seq<Call>, counter: nat, e: nat, resident: seq<nat>, scheduled: seq<nat>,
                   out: seq<nat>)
    requires Stamps(calls, counter) && NoDup(resident)
    requires forall i: nat :: i in resident <==> i < |calls| && calls[i].engine == e && Resident(calls[i])
    requires scheduled == Line(calls, e)[..HoldCount(cfg, Line(calls, e))]
    requires out == Filter(resident, (i: nat) => i !in scheduled)
    ensures |out| == |Victims(cfg, calls, e)| && forall i: nat :: i in out <==> i in Victims(cfg, calls, e)
  {
    hide Sel, Stamps, Victims;
    FilterMembers(resident, (i: nat) => i !in scheduled);
    VictimsAreLive(cfg, calls, e);
    SelFacts(calls, counter, e, LIVE);
    var line := Line(calls, e);
    SplitMembers(line, HoldCount(cfg, line));
    VictimsNoDup(cfg, calls, e);
    forall i: nat ensures i in out <==> i in Victims(cfg, calls, e) {
    }
    NoDupSameLength(out, Victims(cfg, calls, e));
  }
}
