/** The replica coordinator: sessions, pending requests, replica loads, and the shared program table. */
module Coordinators {
  import opened Sequences
  import opened ProgramTables

  datatype FutureState = Waiting | Resolved | Failed | Cancelled

  datatype Item = Item(pid: string, index: nat, callId: string)

  datatype Session = Session(closing: bool, engine: Option<nat>, calls: set<string>)

  datatype Event =
    Progress(rid: string) | Completion(rid: string) | Failure(rid: string) | Cancellation(rid: string) | Stopped

  /** Everything the coordinator's lock protects, with the rows it owns in the shared database. */
  datatype Coord = Coord(
    kind: PolicyKind, sessions: map<string, Session>, pending: map<string, Item>, loads: seq<int>, failed: set<nat>,
      closed: bool,
    futures: map<string, FutureState>, table: Table, activity: set<string>, contexts: set<string>)

  datatype SubmitError = SessionClosed | DuplicateCall | NoReplica

  // ---- Operations ------------------------------------------------------------------

  function PendingOn(c: Coord, index: nat): (r: set<string>)
    ensures forall rid :: rid in r <==> rid in c.pending && c.pending[rid].index == index
  {
    set rid | rid in c.pending && c.pending[rid].index == index
  }

  predicate HasPending(c: Coord, pid: string) { exists rid :: rid in c.pending && c.pending[rid].pid == pid }

  /** `_cleanup_session`: a closing session without pending requests leaves the table and the coordinator. */
  function Cleaned(c: Coord, pid: string): Coord {
    if pid in c.sessions && c.sessions[pid].closing && !HasPending(c, pid)
    then c.(table := Ended(c.table, pid), sessions := c.sessions - {pid})
    else c
  }

  function Started(c: Coord, pid: string): Coord {
    if c.closed || Opened(c.table, pid).Err? then c
    else c.(table := Opened(c.table, pid).value, sessions := c.sessions[pid := Session(false, None, {})])
  }

  function Ending(c: Coord, pid: string): Coord {
    if pid !in c.sessions then c
    else Cleaned(c.(sessions := c.sessions[pid := c.sessions[pid].(closing := true)]), pid)
  }

  predicate Available(c: Coord, index: nat) { index < |c.loads| && index !in c.failed }

  /** The available replica with the least load, the first one among equals. */
  ghost predicate LeastLoaded(c: Coord, index: nat) {
    && Available(c, index)
    && (forall i: nat :: Available(c, i) ==>
       c.loads[index] < c.loads[i] || (c.loads[index] == c.loads[i] && index <= i))
  }

  function SubmitRefused(c: Coord, pid: string, callId: string): Option<SubmitError> {
    if c.closed || pid !in c.sessions || c.sessions[pid].closing then Some(SessionClosed)
    else if callId in c.sessions[pid].calls then Some(DuplicateCall)
    else if !exists i: nat :: i < |c.loads| && Available(c, i) then Some(NoReplica)
    else None
  }

  /** Where a request goes: the least loaded replica, except that long prompts of a session stay on one replica. */
  predicate Placed(c: Coord, pid: string, long: bool, least: nat, index: nat)
    requires pid in c.sessions
  {
    var home := c.sessions[pid].engine;
    if long && home.Some? && Available(c, home.value) then index == home.value else index == least
  }

  ghost predicate Chosen(c: Coord, pid: string, long: bool, index: nat) {
    pid in c.sessions && exists least :: LeastLoaded(c, least) && Placed(c, pid, long, least, index)
  }

  lemma ChosenIs(c: Coord, pid: string, long: bool, least: nat, index: nat)
    requires pid in c.sessions && LeastLoaded(c, least) && Placed(c, pid, long, least, index)
    ensures Chosen(c, pid, long, index) && Available(c, index)
  {
  }

  function Submitted(c: Coord, pid: string, callId: string, rid: string, long: bool, index: nat): Coord
    requires pid in c.sessions && index < |c.loads|
  {
    var s := c.sessions[pid];
    c.(sessions := c.sessions[pid := s.(engine := if long then Some(index) else s.engine, calls := s.calls + {callId})],
       pending := c.pending[rid := Item(pid, index, callId)], loads := c.loads[index := c.loads[index] + 1],
       futures := c.futures[rid := Waiting], activity := c.activity + {rid}, contexts := c.contexts + {rid})
  }

  /** `submit`: refused for one of the three reasons, or booked on the chosen replica. */
  ghost predicate SubmitsTo(c: Coord, c': Coord, pid: string, callId: string, rid: string, long: bool,
                            placed: Option<nat>) {
    (placed.None? <==> SubmitRefused(c, pid, callId).Some?)
    && match placed
       case None => c' == c
       case Some(index) =>
         && pid in c.sessions && Available(c, index) && Chosen(c, pid, long, index)
         && c' == Submitted(c, pid, callId, rid, long, index)
  }

  /** A request is refused exactly for a session that is not open, a call id that the session has used, or want of a
      healthy replica. A long prompt goes to the replica of its session while that is healthy; any other goes to the
      first healthy replica of least load, which becomes the session's replica if the prompt is long. */
  ghost predicate PlacesOn(c: Coord, c': Coord, pid: string, callId: string, rid: string, long: bool,
                           placed: Option<nat>) {
    && (placed.None? <==>
         || c.closed || pid !in c.sessions || c.sessions[pid].closing || callId in c.sessions[pid].calls
         || forall i :: 0 <= i < |c.loads| ==> i in c.failed)
    && (placed.None? ==> c' == c)
    && (placed.Some? ==>
         var index, home := placed.value, c.sessions[pid].engine;
         && index < |c.loads| && index !in c.failed
         && (if long && home.Some? && home.value < |c.loads| && home.value !in c.failed then index == home.value
             else forall i :: 0 <= i < |c.loads| && i !in c.failed ==>
               c.loads[index] < c.loads[i] || (c.loads[index] == c.loads[i] && index <= i))
         && c' == c.(
           sessions := c.sessions[pid := Session(false, if long then Some(index) else home,
             c.sessions[pid].calls + {callId})],
           pending := c.pending[rid := Item(pid, index, callId)], loads := c.loads[index := c.loads[index] + 1],
           futures := c.futures[rid := Waiting], activity := c.activity + {rid}, contexts := c.contexts + {rid}))
  }

  lemma SubmitsPlaces(c: Coord, c': Coord, pid: string, callId: string, rid: string, long: bool, placed: Option<nat>)
    requires SubmitsTo(c, c', pid, callId, rid, long, placed)
    ensures PlacesOn(c, c', pid, callId, rid, long, placed)
  {
    assert forall i: nat :: Available(c, i) <==> i < |c.loads| && i !in c.failed;
    if forall i :: 0 <= i < |c.loads| ==> i in c.failed {
      assert !exists i: nat :: i < |c.loads| && Available(c, i);
    } else {
      var i :| 0 <= i < |c.loads| && i !in c.failed;
      assert Available(c, i);
    }
    if placed.Some? {
      var least :| LeastLoaded(c, least) && Placed(c, pid, long, least, placed.value);
    }
  }

  function Outcome(event: Event, was: FutureState): FutureState {
    if was != Waiting then was
    else match event case Completion(_) => Resolved case Cancellation(_) => Cancelled case _ => Failed
  }

  /** `_resolve` for a request: everything that was booked at submission is given back. */
  function Resolve(c: Coord, rid: string, event: Event): Coord {
    if event.Progress? || rid !in c.pending then c
    else
      var item := c.pending[rid];
      var table := if event.Completion? then c.table else Finished(c.table, item.pid, rid, 0.0, 0.0, 0.0, c.kind);
      Cleaned(
        c.(pending := c.pending - {rid},
           loads := if item.index < |c.loads| then c.loads[item.index := c.loads[item.index] - 1] else c.loads,
           contexts := c.contexts - {rid}, table := table, activity := c.activity - {rid},
           futures := c.futures[rid := Outcome(event, if rid in c.futures then c.futures[rid] else Waiting)]),
        item.pid)
  }

  function FailEach(c: Coord, order: seq<string>): Coord {
    if order == [] then c else Resolve(FailEach(c, order[..|order| - 1]), order[|order| - 1],
      Failure(order[|order| - 1]))
  }

  ghost predicate ListsPending(c: Coord, index: nat, order: seq<string>) {
    NoDup(order) && forall rid :: rid in order <==> rid in c.pending && c.pending[rid].index == index
  }

  /** `_fail_replica`: every request of the replica fails, once. */
  function FailReplica(c: Coord, index: nat, order: seq<string>): Coord {
    if index in c.failed then c else FailEach(c.(failed := c.failed + {index}), order)
  }

  // ---- The invariant -----------------------------------------------------------------

  ghost predicate ItemOk(c: Coord, rid: string, item: Item) {
    item.pid in c.sessions && item.index < |c.loads| && item.index !in c.failed && rid in c.futures
  }

  /** Loads, futures, rows and registers describe the same pending requests. */
  ghost predicate Booked(c: Coord) {
    && TableOk(c.table)
    && (forall i :: 0 <= i < |c.loads| ==> c.loads[i] == |PendingOn(c, i)|)
    && (forall rid :: rid in c.pending ==> ItemOk(c, rid, c.pending[rid]))
    && (forall rid :: rid in c.futures && rid !in c.pending ==> c.futures[rid] != Waiting)
    && (forall rid :: rid in c.table.requests ==> rid in c.pending && c.pending[rid].pid == c.table.requests[rid])
    && c.table.programs.Keys == c.sessions.Keys
    && (forall pid :: pid in c.table.programs ==> !c.table.programs[pid].closing)
    && c.activity == c.pending.Keys && c.contexts <= c.pending.Keys
  }

  /** A closing session is kept only while it has requests; the session `pid` may not have been cleaned up yet. */
  ghost predicate AlmostOk(c: Coord, pid: string) {
    Booked(c) && forall q :: q in c.sessions && q != pid && c.sessions[q].closing ==> HasPending(c, q)
  }

  ghost predicate CoordOk(c: Coord) {
    Booked(c) && forall pid :: pid in c.sessions && c.sessions[pid].closing ==> HasPending(c, pid)
  }

  lemma NoRequestsIdle(c: Coord, pid: string)
    requires AlmostOk(c, pid) && pid in c.sessions && !HasPending(c, pid)
    ensures c.table.programs[pid].active == 0
  {
    assert RequestsOf(c.table, pid) == {};
  }

  lemma CleanedOk(c: Coord, pid: string)
    requires AlmostOk(c, pid)
    ensures CoordOk(Cleaned(c, pid))
    ensures Cleaned(c, pid).pending == c.pending && Cleaned(c, pid).loads == c.loads
      && Cleaned(c, pid).failed == c.failed
    ensures Cleaned(c, pid).futures == c.futures && Cleaned(c, pid).table.requests == c.table.requests
  {
    hide TableOk, RequestsOf;
    if pid in c.sessions && c.sessions[pid].closing && !HasPending(c, pid) {
      NoRequestsIdle(c, pid);
      EndKeeps(c.table, pid);
      var c' := Cleaned(c, pid);
      forall i | 0 <= i < |c'.loads| ensures c'.loads[i] == |PendingOn(c', i)| {
        assert PendingOn(c', i) == PendingOn(c, i);
      }
      forall q | q in c'.sessions && c'.sessions[q].closing ensures HasPending(c', q) {
        assert HasPending(c, q);
      }
    }
  }

  lemma StartKeeps(c: Coord, pid: string)
    requires CoordOk(c)
    ensures CoordOk(Started(c, pid)) && Started(c, pid).pending == c.pending
  {
    hide TableOk, RequestsOf;
    OpenKeeps(c.table, pid);
    var c' := Started(c, pid);
    if c' != c {
      forall i | 0 <= i < |c'.loads| ensures c'.loads[i] == |PendingOn(c', i)| {
        assert PendingOn(c', i) == PendingOn(c, i);
      }
      forall q | q in c'.sessions && c'.sessions[q].closing ensures HasPending(c', q) {
        assert HasPending(c, q);
      }
    }
  }

  lemma EndingKeeps(c: Coord, pid: string)
    requires CoordOk(c)
    ensures CoordOk(Ending(c, pid))
    ensures Ending(c, pid).pending == c.pending && Ending(c, pid).loads == c.loads && Ending(c, pid).failed == c.failed
    ensures Ending(c, pid).futures == c.futures && Ending(c, pid).table.requests == c.table.requests
    ensures pid in Ending(c, pid).sessions ==> HasPending(c, pid)
    ensures forall q :: q in Ending(c, pid).sessions ==> q in c.sessions
  {
    hide TableOk, RequestsOf;
    if pid in c.sessions {
      var c1 := c.(sessions := c.sessions[pid := c.sessions[pid].(closing := true)]);
      forall i | 0 <= i < |c1.loads| ensures c1.loads[i] == |PendingOn(c1, i)| {
        assert PendingOn(c1, i) == PendingOn(c, i);
      }
      forall q | q in c1.sessions && q != pid && c1.sessions[q].closing ensures HasPending(c1, q) {
        assert HasPending(c, q);
      }
      assert c1.table.programs.Keys == c1.sessions.Keys;
      CleanedOk(c1, pid);
    }
  }

  lemma SubmitLoads(c: Coord, pid: string, callId: string, rid: string, long: bool, index: nat)
    requires CoordOk(c) && pid in c.sessions && index < |c.loads| && rid !in c.pending
    ensures var c' := Submitted(c, pid, callId, rid, long, index); forall i :: 0 <= i < |c'.loads| ==>
      c'.loads[i] == |PendingOn(c', i)|
  {
    hide TableOk, PendingOn;
    var c' := Submitted(c, pid, callId, rid, long, index);
    forall i | 0 <= i < |c'.loads| ensures c'.loads[i] == |PendingOn(c', i)| {
      PendingAdded(c, c', rid, Item(pid, index, callId), i);
    }
  }

  lemma PendingAdded(c: Coord, c': Coord, rid: string, item: Item, i: nat)
    requires rid !in c.pending && c'.pending == c.pending[rid := item]
    ensures |PendingOn(c', i)| == |PendingOn(c, i)| + if i == item.index then 1 else 0
  {
    hide PendingOn;
    if i == item.index {
      assert PendingOn(c', i) == PendingOn(c, i) + {rid};
    } else {
      assert PendingOn(c', i) == PendingOn(c, i);
    }
  }

  lemma SubmitKeeps(c: Coord, pid: string, callId: string, rid: string, long: bool, index: nat)
    requires CoordOk(c) && SubmitRefused(c, pid, callId) == None && Available(c, index) && rid !in c.futures
    ensures pid in c.sessions && CoordOk(Submitted(c, pid, callId, rid, long, index))
  {
    hide TableOk, PendingOn;
    var c' := Submitted(c, pid, callId, rid, long, index);
    SubmitLoads(c, pid, callId, rid, long, index);
    assert c'.table.programs.Keys == c'.sessions.Keys;
    forall q | q in c'.sessions && c'.sessions[q].closing ensures HasPending(c', q) {
      var r :| r in c.pending && c.pending[r].pid == q;
      assert r in c'.pending && c'.pending[r].pid == q;
    }
  }

  /** The state right before the cleanup at the end of `_resolve`. */
  function Unbooked(c: Coord, rid: string, event: Event): Coord
    requires rid in c.pending
  {
    var item := c.pending[rid];
    var table := if event.Completion? then c.table else Finished(c.table, item.pid, rid, 0.0, 0.0, 0.0, c.kind);
    c.(pending := c.pending - {rid},
       loads := if item.index < |c.loads| then c.loads[item.index := c.loads[item.index] - 1] else c.loads,
       contexts := c.contexts - {rid}, table := table, activity := c.activity - {rid},
       futures := c.futures[rid := Outcome(event, if rid in c.futures then c.futures[rid] else Waiting)])
  }

  lemma UnbookedLoads(c: Coord, rid: string, event: Event)
    requires CoordOk(c) && rid in c.pending
    ensures var c' := Unbooked(c, rid, event); forall i :: 0 <= i < |c'.loads| ==> c'.loads[i] == |PendingOn(c', i)|
  {
    hide TableOk, Finished;
    var c' := Unbooked(c, rid, event);
    assert ItemOk(c, rid, c.pending[rid]);
    forall i | 0 <= i < |c'.loads| ensures c'.loads[i] == |PendingOn(c', i)| {
      if i == c.pending[rid].index {
        assert rid in PendingOn(c, i) && PendingOn(c', i) == PendingOn(c, i) - {rid};
      } else {
        assert PendingOn(c', i) == PendingOn(c, i);
      }
    }
  }

  lemma ErrorKeepsPrograms(t: Table, pid: string, rid: string, kind: PolicyKind)
    requires TableOk(t) && (forall q :: q in t.programs ==> !t.programs[q].closing)
    ensures var t' := Finished(t, pid, rid, 0.0, 0.0, 0.0, kind);
      && t'.programs.Keys == t.programs.Keys && (forall q :: q in t'.programs ==> !t'.programs[q].closing)
      && (Requested(t, pid, rid) ==> t'.requests == t.requests - {rid}) && (!Requested(t, pid, rid) ==> t' == t)
  {
  }

  lemma UnbookedTable(c: Coord, rid: string, event: Event)
    requires CoordOk(c) && rid in c.pending && !event.Progress? && (event.Completion? ==> rid !in c.table.requests)
    ensures var t := Unbooked(c, rid, event).table;
      && TableOk(t) && t.programs.Keys == c.table.programs.Keys && t.requests == c.table.requests - {rid}
      && (forall q :: q in t.programs ==> !t.programs[q].closing)
  {
    hide TableOk, Finished, PendingOn;
    FinishKeeps(c.table, c.pending[rid].pid, rid, 0.0, 0.0, 0.0, c.kind);
    ErrorKeepsPrograms(c.table, c.pending[rid].pid, rid, c.kind);
    if rid !in c.table.requests {
      assert c.table.requests - {rid} == c.table.requests;
    }
  }

  /** Resolving a request gives back its load, its rows and its future, and leaves everything else as it was. */
  lemma UnbookedOk(c: Coord, rid: string, event: Event)
    requires CoordOk(c) && rid in c.pending && !event.Progress? && (event.Completion? ==> rid !in c.table.requests)
    ensures AlmostOk(Unbooked(c, rid, event), c.pending[rid].pid)
    ensures Unbooked(c, rid, event).table.requests == c.table.requests - {rid}
  {
    hide TableOk, Finished, PendingOn;
    var c1 := Unbooked(c, rid, event);
    assert ItemOk(c, rid, c.pending[rid]);
    UnbookedLoads(c, rid, event);
    UnbookedTable(c, rid, event);
    forall r | r in c1.pending ensures ItemOk(c1, r, c1.pending[r]) {
      assert ItemOk(c, r, c.pending[r]);
    }
    forall q | q in c1.sessions && q != c.pending[rid].pid && c1.sessions[q].closing ensures HasPending(c1, q) {
      assert HasPending(c, q);
      var r :| r in c.pending && c.pending[r].pid == q;
      assert r in c1.pending && c1.pending[r].pid == q;
    }
  }

  lemma ResolveKeeps(c: Coord, rid: string, event: Event)
    requires CoordOk(c) && (event.Completion? ==> rid !in c.table.requests)
    ensures CoordOk(Resolve(c, rid, event))
    ensures var c' := Resolve(c, rid, event);
      && c'.failed == c.failed && |c'.loads| == |c.loads| && c'.closed == c.closed
      && c'.futures.Keys == c.futures.Keys
      && c'.pending == (if event.Progress? then c.pending else c.pending - {rid})
      && c'.table.requests == (if event.Progress? then c.table.requests else c.table.requests - {rid})
      && (forall q :: q in c'.sessions ==> q in c.sessions)
      && (forall r :: r in c.futures && r != rid ==> c'.futures[r] == c.futures[r])
  {
    hide TableOk, Finished, PendingOn;
    if !event.Progress? && rid in c.pending {
      UnbookedOk(c, rid, event);
      hide CoordOk, AlmostOk, ItemOk, HasPending;
      CleanedOk(Unbooked(c, rid, event), c.pending[rid].pid);
    } else if !event.Progress? {
      assert c.pending - {rid} == c.pending && c.table.requests - {rid} == c.table.requests;
    }
  }

  lemma {:induction false} FailEachKeeps(c: Coord, order: seq<string>)
    requires CoordOk(c)
    ensures CoordOk(FailEach(c, order))
    ensures var c' := FailEach(c, order);
      && c'.failed == c.failed && |c'.loads| == |c.loads| && c'.closed == c.closed && c'.futures.Keys == c.futures.Keys
      && (forall rid :: rid in c'.pending <==> rid in c.pending && rid !in order)
      && (forall rid :: rid in c'.pending ==> c'.pending[rid] == c.pending[rid])
      && (forall rid :: rid in c'.table.requests <==> rid in c.table.requests && rid !in order)
      && (forall rid :: rid in c'.table.requests ==> c'.table.requests[rid] == c.table.requests[rid])
      && (forall q :: q in c'.sessions ==> q in c.sessions)
  {
    hide CoordOk, Resolve;
    if order != [] {
      var front, last := order[..|order| - 1], order[|order| - 1];
      assert forall rid :: rid in order <==> rid in front || rid == last;
      FailEachKeeps(c, front);
      ResolveKeeps(FailEach(c, front), last, Failure(last));
    }
  }

  /** Marking a replica as failed is sound only together with failing its requests. */
  /** Resolving a request ends its future, if that still waits, in the way the event says, and touches no other
      future. */
  lemma ResolveFutures(c: Coord, rid: string, event: Event)
    requires rid in c.pending ==> rid in c.futures
    ensures var c' := Resolve(c, rid, event);
      && c'.futures.Keys == c.futures.Keys
      && forall r :: r in c.futures ==>
        if r != rid || rid !in c.pending || event.Progress? || c.futures[r] != Waiting then
          c'.futures[r] == c.futures[r]
        else if event.Completion? then c'.futures[r] == Resolved
        else if event.Cancellation? then c'.futures[r] == Cancelled
        else c'.futures[r] == Failed
  {
    hide Finished, Ended;
  }

  /** The event ends the future of its pending request, if that still waits, and touches no other future. */
  ghost predicate EndsFuture(c: Coord, rid: string, event: Event, c': Coord) {
    && c'.futures.Keys == c.futures.Keys
    && (forall r :: r in c.futures && r != rid ==> c'.futures[r] == c.futures[r])
    && (rid in c.futures && (rid !in c.pending || event.Progress? || c.futures[rid] != Waiting) ==>
         c'.futures[rid] == c.futures[rid])
    && (rid in c.futures && rid in c.pending && c.futures[rid] == Waiting ==>
         && (event.Completion? ==> c'.futures[rid] == Resolved)
         && (event.Cancellation? ==> c'.futures[rid] == Cancelled)
         && (event.Failure? || event.Stopped? ==> c'.futures[rid] == Failed))
  }

  lemma ResolveEnds(c: Coord, rid: string, event: Event)
    requires Indexed(c)
    ensures EndsFuture(c, rid, event, Resolve(c, rid, event)) && Indexed(Resolve(c, rid, event))
  {
    ResolveFutures(c, rid, event);
    hide Finished, Ended;
  }

  lemma {:induction false} FailEachFutures(c: Coord, order: seq<string>)
    requires CoordOk(c) && NoDup(order) && forall rid :: rid in order ==> rid in c.pending
    ensures var c' := FailEach(c, order);
      && c'.futures.Keys == c.futures.Keys
      && forall r :: r in c.futures ==>
        c'.futures[r] == if r in order && c.futures[r] == Waiting then Failed else c.futures[r]
  {
    hide Resolve, CoordOk;
    if order != [] {
      var front, last := order[..|order| - 1], order[|order| - 1];
      PopLast(order);
      FailEachFutures(c, front);
      FailEachKeeps(c, front);
      BookedFuture(c, last);
      ResolveFutures(FailEach(c, front), last, Failure(last));
    }
  }

  lemma BookedFuture(c: Coord, rid: string)
    requires CoordOk(c) && rid in c.pending
    ensures rid in c.futures
  {
    assert ItemOk(c, rid, c.pending[rid]);
  }

  /** Failing a replica fails exactly the waiting futures of its pending requests. */
  lemma FailReplicaFutures(c: Coord, index: nat, order: seq<string>)
    requires CoordOk(c) && ListsPending(c, index, order)
    ensures var c' := FailReplica(c, index, order);
      && c'.futures.Keys == c.futures.Keys
      && forall r :: r in c.futures ==>
        c'.futures[r] ==
          if r in c.pending && c.pending[r].index == index && c.futures[r] == Waiting then Failed else c.futures[r]
  {
    hide FailEach, TableOk, PendingOn;
    if index in c.failed {
      forall rid | rid in c.pending ensures c.pending[rid].index != index {
        assert ItemOk(c, rid, c.pending[rid]);
      }
    } else {
      FailedEach(c, index, order);
      FailEachFutures(c, order);
    }
  }

  lemma FailReplicaKeeps(c: Coord, index: nat, order: seq<string>)
    requires CoordOk(c) && ListsPending(c, index, order)
    ensures CoordOk(FailReplica(c, index, order))
    ensures var c' := FailReplica(c, index, order);
      && c'.failed == c.failed + {index} && |c'.loads| == |c.loads| && c'.closed == c.closed
      && c'.futures.Keys == c.futures.Keys
      && (forall rid :: rid in c'.pending <==> rid in c.pending && c.pending[rid].index != index)
      && (forall rid :: rid in c'.pending ==> c'.pending[rid] == c.pending[rid])
      && (forall rid :: rid in c'.table.requests ==>
         rid in c.table.requests && c'.table.requests[rid] == c.table.requests[rid])
      && (forall q :: q in c'.sessions ==> q in c.sessions)
  {
    hide FailEach, TableOk, PendingOn, Resolve;
    if index in c.failed {
      forall rid | rid in c.pending ensures c.pending[rid].index != index {
        assert ItemOk(c, rid, c.pending[rid]);
      }
      assert c.failed + {index} == c.failed;
    } else {
      FailEachKeeps(c, order);
      FailedEach(c, index, order);
      MarkFailed(c, index, order);
    }
  }

  /** Failing the requests commutes with setting the mark first. */
  lemma {:induction false} FailedEach(c: Coord, index: nat, order: seq<string>)
    ensures FailEach(c.(failed := c.failed + {index}), order) == FailEach(c, order).(failed := c.failed + {index})
    ensures FailEach(c, order).failed == c.failed
  {
    hide Resolve;
    if order != [] {
      var n := |order| - 1;
      FailedEach(c, index, order[..n]);
      ResolveUnmarked(FailEach(c, order[..n]), index, order[n], Failure(order[n]));
    }
  }

  lemma ResolveUnmarked(c: Coord, index: nat, rid: string, event: Event)
    ensures Resolve(c.(failed := c.failed + {index}), rid, event)
      == Resolve(c, rid, event).(failed := c.failed + {index})
    ensures Resolve(c, rid, event).failed == c.failed
  {
    hide Finished, Cleaned, Outcome;
    if !event.Progress? && rid in c.pending {
      CleanedUnmarked(Unbooked(c, rid, event), index, c.pending[rid].pid);
    }
  }

  lemma CleanedUnmarked(c: Coord, index: nat, pid: string)
    ensures Cleaned(c.(failed := c.failed + {index}), pid) == Cleaned(c, pid).(failed := c.failed + {index})
    ensures Cleaned(c, pid).failed == c.failed
  {
    hide Ended;
  }

  lemma SamePendingOn(c: Coord, c': Coord, index: nat)
    requires c'.pending == c.pending
    ensures PendingOn(c', index) == PendingOn(c, index)
  {
  }

  lemma MarkFailed(c: Coord, index: nat, order: seq<string>)
    requires CoordOk(c) && ListsPending(c, index, order) && CoordOk(FailEach(c, order))
      && FailEach(c, order).failed == c.failed
    requires var c' := FailEach(c, order);
      && (forall rid :: rid in c'.pending <==> rid in c.pending && rid !in order)
      && (forall rid :: rid in c'.pending ==> c'.pending[rid] == c.pending[rid])
    ensures CoordOk(FailEach(c, order).(failed := c.failed + {index}))
  {
    hide FailEach, TableOk, PendingOn;
    var c' := FailEach(c, order);
    var marked := c'.(failed := c.failed + {index});
    forall i | 0 <= i < |marked.loads| ensures marked.loads[i] == |PendingOn(marked, i)| {
      assert PendingOn(marked, i) == PendingOn(c', i) by { SamePendingOn(c', marked, i); }
    }
    forall rid | rid in marked.pending ensures ItemOk(marked, rid, marked.pending[rid]) {
      assert ItemOk(c', rid, c'.pending[rid]);
    }
    forall q | q in marked.sessions && marked.sessions[q].closing ensures HasPending(marked, q) {
      assert HasPending(c', q);
    }
  }

  /** Nothing is left in the shared table once no request is pending and every session has been ended. */
  lemma AllReclaimed(c: Coord)
    requires CoordOk(c) && c.pending == map[] && forall pid :: pid in c.sessions ==> c.sessions[pid].closing
    ensures c.table == Table(map[], map[]) && c.sessions == map[] && c.activity == {} && c.contexts == {}
    ensures (forall i :: 0 <= i < |c.loads| ==> c.loads[i] == 0)
      && (forall rid :: rid in c.futures ==> c.futures[rid] != Waiting)
  {
    forall pid ensures !HasPending(c, pid) {
    }
    assert c.sessions.Keys == {} && c.sessions == map[] && c.table.programs == map[] && c.table.requests == map[];
    forall i | 0 <= i < |c.loads| ensures c.loads[i] == 0 {
      assert PendingOn(c, i) == {};
    }
  }

  // ---- The coordinator object ------------------------------------------------------------

  class Coordinator {
    const kind: PolicyKind
    const database: ProgramTable
    var sessions: map<string, Session>
    var pending: map<string, Item>
    var loads: seq<int>
    var failed: set<nat>
    var closed: bool
    var futures: map<string, FutureState>
    var activity: set<string>
    var contexts: set<string>

    function State(): Coord
      reads this, database
    {
      Coord(kind, sessions, pending, loads, failed, closed, futures, database.Contents(), activity, contexts)
    }

    constructor (kind: PolicyKind, replicas: nat, database: ProgramTable)
      requires database.Contents() == Table(map[], map[])
      ensures CoordOk(State()) && |loads| == replicas && pending == map[] && sessions == map[] && !closed
    {
      this.kind, this.database := kind, database;
      sessions, pending, loads, failed, closed := map[], map[], seq(replicas, i => 0), {}, false;
      futures, activity, contexts := map[], {}, {};
      new;
      forall i | 0 <= i < |loads| ensures loads[i] == |PendingOn(State(), i)| {
        assert PendingOn(State(), i) == {};
      }
    }

    method StartSession(pid: string) returns (ok: bool)
      modifies this`sessions, database
      ensures State() == Started(old(State()), pid)
      ensures ok <==> !closed && Opened(old(database.Contents()), pid).Ok?
      ensures ok <==> !closed && pid != "" && pid !in old(database.programs)
      ensures ok ==> sessions == old(sessions)[pid := Session(false, None, {})]
    {
      if closed { return false; }
      var failure := database.Open(pid);
      if failure.Some? { return false; }
      sessions := sessions[pid := Session(false, None, {})];
      return true;
    }

    method CleanupSession(pid: string)
      modifies this`sessions, database
      ensures State() == Cleaned(old(State()), pid)
    {
      if pid in sessions && sessions[pid].closing && !exists rid :: rid in pending && pending[rid].pid == pid {
        database.End(pid);
        sessions := sessions - {pid};
      }
    }

    method EndSession(pid: string)
      modifies this`sessions, database
      ensures State() == Ending(old(State()), pid)
    {
      if pid !in sessions { return; }
      sessions := sessions[pid := sessions[pid].(closing := true)];
      CleanupSession(pid);
    }

    /** The first of the least loaded replicas that have not failed. */
    method LeastLoadedReplica() returns (best: Option<nat>)
      ensures best.None? <==> !exists i: nat :: i < |loads| && Available(State(), i)
      ensures best.Some? ==> LeastLoaded(State(), best.value)
    {
      best := None;
      for i := 0 to |loads|
        invariant best.None? <==> forall j: nat :: j < i ==> !Available(State(), j)
        invariant best.Some? ==> best.value < i && Available(State(), best.value)
        invariant best.Some? ==> forall j: nat :: j < i && Available(State(), j) ==>
          loads[best.value] < loads[j] || (loads[best.value] == loads[j] && best.value <= j)
      {
        assert Available(State(), i) <==> i !in failed;
        if i !in failed && (best.None? || loads[i] < loads[best.value]) {
          best := Some(i);
        }
      }
    }

    /** `submit`, after tokenization; `long` tells whether the prompt exceeds the locality threshold, `rid` is a fresh
        id. */
    method Submit(pid: string, callId: string, rid: string, long: bool) returns (placed: Option<nat>)
      requires rid !in futures
      modifies this
      ensures SubmitsTo(old(State()), State(), pid, callId, rid, long, placed)
      ensures PlacesOn(old(State()), State(), pid, callId, rid, long, placed)
    {
      hide LeastLoaded, SubmitsTo, SubmitRefused, Available, Chosen, Placed, PlacesOn;
      ghost var start := State();
      RefusedFirst(start, pid, callId, rid, long);
      if closed || pid !in sessions || sessions[pid].closing || callId in sessions[pid].calls {
        SubmitsPlaces(start, State(), pid, callId, rid, long, None);
        return None;
      }
      var least := LeastLoadedReplica();
      assert State() == start;
      if least.None? {
        SubmitsPlaces(start, State(), pid, callId, rid, long, None);
        return None;
      }
      LeastAvailable(start, least.value);
      var s, index := sessions[pid], least.value;
      if long {
        if s.engine.Some? && s.engine.value < |loads| && s.engine.value !in failed {
          index := s.engine.value;
        } else {
          s := s.(engine := Some(index));
        }
      }
      AcceptedAt(start, pid, callId, rid, long, least.value, index, s);
      contexts := contexts + {rid};
      activity := activity + {rid};
      futures := futures[rid := Waiting];
      pending := pending[rid := Item(pid, index, callId)];
      s := s.(calls := s.calls + {callId});
      sessions := sessions[pid := s];
      loads := loads[index := loads[index] + 1];
      SubmitsPlaces(start, State(), pid, callId, rid, long, Some(index));
      return Some(index);
    }

    /** `_resolve`, for a submitted request. */
    method ResolveEvent(rid: string, event: Event)
      requires Indexed(State())
      modifies this, database
      ensures State() == Resolve(old(State()), rid, event) && Indexed(State())
      ensures EndsFuture(old(State()), rid, event, State())
    {
      hide Finished, Ended, EndsFuture, Indexed;
      ResolveEnds(State(), rid, event);
      if event.Progress? || rid !in pending { return; }
      IndexedAt(State(), rid);
      var item := pending[rid];
      pending := pending - {rid};
      loads := loads[item.index := loads[item.index] - 1];
      contexts := contexts - {rid};
      if !event.Completion? {
        database.Finish(item.pid, rid, 0.0, 0.0, 0.0, kind);
      }
      if futures[rid] == Waiting {
        futures := futures[rid := if event.Completion? then Resolved else if event.Cancellation? then Cancelled
          else Failed];
      }
      activity := activity - {rid};
      assert State() == Unbooked(old(State()), rid, event);
      CleanupSession(item.pid);
    }

    /** `list(self.pending.items())`, restricted to one replica. */
    method ListReplica(index: nat) returns (order: seq<string>)
      ensures ListsPending(State(), index, order)
    {
      order := [];
      var todo := PendingOn(State(), index);
      while todo != {}
        invariant todo <= PendingOn(State(), index) && NoDup(order)
        invariant forall rid :: rid in order <==> rid in PendingOn(State(), index) && rid !in todo
        decreases |todo|
      {
        var rid :| rid in todo;
        order, todo := order + [rid], todo - {rid};
      }
    }

    /** `_fail_replica`: fail every request that is pending on the replica. */
    method FailReplicaAt(index: nat) returns (order: seq<string>)
      requires Indexed(State())
      modifies this, database
      ensures ListsPending(old(State()), index, order) && State() == FailReplica(old(State()), index, order)
        && Indexed(State())
    {
      hide Resolve, ListsPending;
      ghost var before := State();
      order := ListReplica(index);
      if index in failed { return; }
      failed := failed + {index};
      for k := 0 to |order|
        invariant Indexed(State()) && State() == FailEach(before.(failed := before.failed + {index}), order[..k])
      {
        TakeMore(order, k);
        assert order[..k + 1][..k] == order[..k];
        ResolveEvent(order[k], Failure(order[k]));
      }
      TakeAll(order);
    }

    /** The last part of `shutdown`, when every worker process is gone: fail every replica and end every session. */
    method CloseDown()
      requires CoordOk(State())
      modifies this, database
      ensures CoordOk(State()) && closed && |loads| == |old(loads)|
      ensures pending == map[] && sessions == map[] && database.Contents() == Table(map[], map[])
      ensures forall rid :: rid in futures ==> futures[rid] != Waiting
      ensures futures.Keys == old(futures).Keys
    {
      hide CoordOk, FailReplica, Ending, ListsPending;
      for index := 0 to |loads|
        invariant CoordOk(State()) && |loads| == |old(loads)| && futures.Keys == old(futures).Keys
        invariant forall rid :: rid in pending ==> pending[rid].index >= index
      {
        IsIndexed(State());
        ghost var before := State();
        var order := FailReplicaAt(index);
        FailReplicaKeeps(before, index, order);
      }
      NonePending(State());
      var todo := sessions.Keys;
      while todo != {}
        invariant CoordOk(State()) && pending == map[] && |loads| == |old(loads)| && futures.Keys == old(futures).Keys
        invariant sessions.Keys <= todo
        decreases |todo|
      {
        var pid :| pid in todo;
        EndingKeeps(State(), pid);
        NobodyPends(State(), pid);
        EndSession(pid);
        todo := todo - {pid};
      }
      ghost var open := State();
      closed := true;
      ClosedKeeps(open, State());
      AllReclaimed(State());
    }
  }

  /** What `_resolve` relies on: pending requests name a replica and a future. */
  ghost predicate Indexed(c: Coord) {
    forall rid :: rid in c.pending ==> c.pending[rid].index < |c.loads| && rid in c.futures
  }

  lemma IndexedAt(c: Coord, rid: string)
    requires Indexed(c) && rid in c.pending
    ensures c.pending[rid].index < |c.loads| && rid in c.futures
  {
  }

  lemma IsIndexed(c: Coord)
    requires CoordOk(c)
    ensures Indexed(c)
  {
    forall rid | rid in c.pending ensures c.pending[rid].index < |c.loads| && rid in c.futures {
      assert ItemOk(c, rid, c.pending[rid]);
    }
  }

  lemma NonePending(c: Coord)
    requires CoordOk(c) && forall rid :: rid in c.pending ==> c.pending[rid].index >= |c.loads|
    ensures c.pending == map[]
  {
    IsIndexed(c);
    assert c.pending.Keys == {};
  }

  lemma NobodyPends(c: Coord, pid: string)
    requires c.pending == map[]
    ensures !HasPending(c, pid)
  {
  }

  lemma ClosedKeeps(open: Coord, c: Coord)
    requires CoordOk(open) && c == open.(closed := true)
    ensures CoordOk(c)
  {
    forall i | 0 <= i < |c.loads| ensures c.loads[i] == |PendingOn(c, i)| {
      assert PendingOn(c, i) == PendingOn(open, i);
    }
    forall rid | rid in c.pending ensures ItemOk(c, rid, c.pending[rid]) {
      assert ItemOk(open, rid, c.pending[rid]);
    }
    forall q | q in c.sessions && c.sessions[q].closing ensures HasPending(c, q) {
      assert HasPending(open, q);
    }
  }

  lemma LeastAvailable(c: Coord, index: nat)
    requires LeastLoaded(c, index)
    ensures Available(c, index) && index < |c.loads|
  {
  }

  /** Reasons to refuse, in the order of the checks. */
  lemma RefusedFirst(c: Coord, pid: string, callId: string, rid: string, long: bool)
    ensures c.closed || pid !in c.sessions || c.sessions[pid].closing || callId in c.sessions[pid].calls ==>
      SubmitsTo(c, c, pid, callId, rid, long, None)
    ensures (!exists i: nat :: i < |c.loads| && Available(c, i)) ==> SubmitsTo(c, c, pid, callId, rid, long, None)
  {
  }

  lemma AcceptedAt(c: Coord, pid: string, callId: string, rid: string, long: bool, least: nat, index: nat, s: Session)
    requires !c.closed && pid in c.sessions && !c.sessions[pid].closing && callId !in c.sessions[pid].calls
      && LeastLoaded(c, least)
    requires var was := c.sessions[pid];
      if long && was.engine.Some? && was.engine.value < |c.loads|
        && was.engine.value !in c.failed then index == was.engine.value && s == was
      else index == least && s == if long then was.(engine := Some(index)) else was
    ensures index < |c.loads|
      && SubmitsTo(c, Submitted(c, pid, callId, rid, long, index), pid, callId, rid, long, Some(index))
    ensures Submitted(c, pid, callId, rid, long, index).sessions == c.sessions[pid := s.(calls := s.calls + {callId})]
  {
    ChosenIs(c, pid, long, least, index);
    hide LeastLoaded;
    assert Available(c, index);
  }
}
