/** Coordinator, workers and shared table as interleaved steps over FIFO channels: requests, cancellations, results,
 *  worker failures and deaths, late events, session ends and shutdown in any order. */
module Protocol {
  import opened Sequences
  import opened ProgramTables
  import opened Coordinators

  datatype Command = Add(rid: string, pid: string) | Cancel(rid: string) | Quit

  /** What a worker remembers of an admitted call. */
  datatype Held = Held(pid: string, inherited: real)

  datatype Worker = Worker(commands: seq<Command>, events: seq<Event>, held: map<string, Held>, able: bool, gone: bool)

  /** `home` tells for every request ever submitted which replica it went to. */
  datatype World = World(c: Coord, workers: seq<Worker>, home: map<string, nat>)

  datatype AddOutcome = Refused | EngineFails | Accepted

  datatype Step =
    | StartSession(pid: string)
    | EndSession(pid: string)
    | Submit(pid: string, callId: string, rid: string, long: bool, index: nat)
    | CancelFuture(rid: string)
    | TakeCommand(i: nat, outcome: AddOutcome)
    | Report(i: nat, rid: string)
    | Complete(i: nat, rid: string, executed: real, waited: real)
    | Break(i: nat)
    | Release(i: nat, rid: string, executed: real, waited: real)
    | Die(i: nat, kept: nat)
    | Deliver(i: nat, order: seq<string>)
    | DetectDeath(i: nat, order: seq<string>)
    | AskQuit
    | CloseDown(orders: seq<seq<string>>)

  // ---- Worker steps ------------------------------------------------------------------

  function Inherited(kind: PolicyKind, t: Table, pid: string): real {
    if pid in t.programs then Inherits(kind, t.programs[pid].service) else 0.0
  }

  /** `backend.add`: the context is taken, the call is admitted, and handed to the serving engine. */
  function TakeAdd(w: World, i: nat, rest: seq<Command>, rid: string, pid: string, outcome: AddOutcome): World
    requires i < |w.workers|
  {
    var k := w.workers[i].(commands := rest);
    if outcome == Refused then w.(workers := w.workers[i := k.(events := k.events + [Failure(rid)])])
    else
      var c := w.c.(contexts := w.c.contexts - {rid});
      match Admitted(c.table, pid, rid)
      case Err(_) => w.(c := c, workers := w.workers[i := k.(events := k.events + [Failure(rid)])])
      case Ok(t) =>
        var inherited := Inherited(c.kind, c.table, pid);
        if outcome == EngineFails then
          w.(c := c.(table := Finished(t, pid, rid, inherited, 0.0, 0.0, c.kind)),
            workers := w.workers[i := k.(events := k.events + [Failure(rid)])])
        else
          w.(c := c.(table := t), workers := w.workers[i := k.(held := k.held[rid := Held(pid, inherited)])])
  }

  /** The worker's scheduler gives a call back to the table; unknown calls are ignored. */
  function GiveBack(c: Coord, held: map<string, Held>, rid: string, executed: real, waited: real): Coord {
    if rid !in held then c
    else c.(table := Finished(c.table, held[rid].pid, rid, held[rid].inherited, executed, waited, c.kind))
  }

  function Take(w: World, i: nat, outcome: AddOutcome): World {
    if i >= |w.workers| || !w.workers[i].able || w.workers[i].commands == [] then w
    else
      var k := w.workers[i];
      var head, rest := k.commands[0], k.commands[1..];
      match head
      case Add(rid, pid) => TakeAdd(w, i, rest, rid, pid, outcome)
      case Cancel(rid) =>
        w.(c := GiveBack(w.c, k.held, rid, 0.0, 0.0),
           workers := w.workers[i := k.(commands := rest, held := k.held - {rid},
             events := k.events + [Cancellation(rid)])])
      case Quit => w.(workers := w.workers[i := k.(commands := rest, able := false, events := k.events + [Stopped])])
  }

  function Completed(w: World, i: nat, rid: string, executed: real, waited: real): World {
    if i >= |w.workers| || !w.workers[i].able || rid !in w.workers[i].held then w
    else
      var k := w.workers[i];
      w.(c := GiveBack(w.c, k.held, rid, executed, waited),
         workers := w.workers[i := k.(held := k.held - {rid}, events := k.events + [Completion(rid)])])
  }

  // ---- The world's steps ---------------------------------------------------------------

  function Sent(w: World, i: nat, command: Command): World
    requires i < |w.workers|
  {
    w.(workers := w.workers[i := w.workers[i].(commands := w.workers[i].commands + [command])])
  }

  function FailAll(c: Coord, orders: seq<seq<string>>, n: nat): Coord
    requires n <= |orders|
  {
    if n == 0 then c else FailReplica(FailAll(c, orders, n - 1), n - 1, orders[n - 1])
  }

  function EndAll(c: Coord, pids: seq<string>): Coord {
    if pids == [] then c else Ending(EndAll(c, pids[..|pids| - 1]), pids[|pids| - 1])
  }

  /** A step that may happen. Request ids are fresh; a replica is declared dead only when its process is; the last part
      of a shutdown waits for every process to be gone. */
  ghost predicate Enabled(w: World, s: Step) {
    match s
    case StartSession(_) => !w.c.closed
    case EndSession(_) => true
    case Submit(pid, callId, rid, long, index) =>
      rid !in w.c.futures && SubmitRefused(w.c, pid, callId) == None && Available(w.c, index)
        && Chosen(w.c, pid, long, index)
    case CancelFuture(rid) => rid in w.c.futures
    case TakeCommand(i, _) => i < |w.workers|
    case Report(i, rid) => i < |w.workers| && w.workers[i].able && rid in w.workers[i].held
    case Complete(i, rid, executed, waited) => i < |w.workers| && executed >= 0.0
    case Break(i) => i < |w.workers| && w.workers[i].able
    case Release(i, rid, executed, waited) => i < |w.workers| && !w.workers[i].able && !w.workers[i].gone
      && rid in w.workers[i].held && executed >= 0.0
    case Die(i, kept) => i < |w.workers| && kept <= |w.workers[i].events|
    case Deliver(i, order) => !w.c.closed && i < |w.workers| && w.workers[i].events != [] && ListsPending(w.c, i, order)
    case DetectDeath(i, order) => !w.c.closed && i < |w.workers| && w.workers[i].gone && ListsPending(w.c, i, order)
    case AskQuit => !w.c.closed
    case CloseDown(orders) =>
      && !w.c.closed && |orders| == |w.workers| && (forall i :: 0 <= i < |w.workers| ==> !w.workers[i].able)
      && (forall i :: 0 <= i < |orders| ==> ListsPending(FailAll(w.c, orders, i), i, orders[i]))
  }

  ghost function Next(w: World, s: Step): World
    requires Enabled(w, s)
  {
    match s
    case StartSession(pid) => w.(c := Started(w.c, pid))
    case EndSession(pid) => w.(c := Ending(w.c, pid))
    case Submit(pid, callId, rid, long, index) => Submission(w, pid, callId, rid, long, index)
    case CancelFuture(rid) => Cancelling(w, rid)
    case TakeCommand(i, outcome) => Take(w, i, outcome)
    case Report(i, rid) => w.(workers := w.workers[i := w.workers[i].(events := w.workers[i].events + [Progress(rid)])])
    case Complete(i, rid, executed, waited) => Completed(w, i, rid, executed, waited)
    case Break(i) => w.(workers := w.workers[i := w.workers[i].(able := false,
      events := w.workers[i].events + [Stopped])])
    case Release(i, rid, executed, waited) =>
      w.(c := GiveBack(w.c, w.workers[i].held, rid, executed, waited),
        workers := w.workers[i := w.workers[i].(held := w.workers[i].held - {rid})])
    case Die(i, kept) => w.(workers := w.workers[i := w.workers[i].(able := false, gone := true,
      events := w.workers[i].events[..kept])])
    case Deliver(i, order) => Delivery(w, i, order)
    case DetectDeath(i, order) => w.(c := FailReplica(w.c, i, order))
    case AskQuit => w.(workers := Asked(w.workers))
    case CloseDown(orders) => w.(c := Closing(w.c, orders))
  }

  function Submission(w: World, pid: string, callId: string, rid: string, long: bool, index: nat): World {
    if pid !in w.c.sessions || index >= |w.c.loads| || index >= |w.workers| then w
    else Sent(w.(c := Submitted(w.c, pid, callId, rid, long, index), home := w.home[rid := index]), index,
      Add(rid, pid))
  }

  /** A client cancels a future; its callback sends the cancel command to the replica of the request. */
  function Cancelling(w: World, rid: string): World {
    if rid !in w.c.futures || w.c.futures[rid] != Waiting || rid !in w.home || w.home[rid] >= |w.workers| then w
    else Sent(w.(c := w.c.(futures := w.c.futures[rid := Cancelled])), w.home[rid], Cancel(rid))
  }

  /** The listener takes the oldest event of one worker. */
  function Delivery(w: World, i: nat, order: seq<string>): World {
    if i >= |w.workers| || w.workers[i].events == [] then w
    else
      var event := w.workers[i].events[0];
      var popped := w.(workers := w.workers[i := w.workers[i].(events := w.workers[i].events[1..])]);
      if event.Stopped? then popped.(c := FailReplica(w.c, i, order)) else popped.(c := Resolve(w.c, event.rid, event))
  }

  function Asked(workers: seq<Worker>): (r: seq<Worker>)
    ensures |r| == |workers| && forall i :: 0 <= i < |r| ==>
      r[i] == workers[i].(commands := workers[i].commands + [Quit])
  {
    seq(|workers|, i requires 0 <= i < |workers| => workers[i].(commands := workers[i].commands + [Quit]))
  }

  /** The end of a shutdown: fail every replica, end every session, close. */
  ghost function Closing(c: Coord, orders: seq<seq<string>>): Coord {
    var failed := FailAll(c, orders, |orders|);
    EndAll(failed, SetToSeq(failed.sessions.Keys)).(closed := true)
  }

  // ---- The invariant ---------------------------------------------------------------------

  /** No request is added twice, or after its own cancellation. */
  ghost predicate AddsOnce(commands: seq<Command>) {
    forall j, k :: 0 <= j < k < |commands| && (commands[j].Add? || commands[j].Cancel?) && commands[k].Add? ==>
      commands[j].rid != commands[k].rid
  }

  /** A request that a worker has yet to add: booked with the coordinator, unknown to the table and to the worker. */
  ghost predicate AddOk(w: World, i: nat, rid: string, pid: string)
    requires i < |w.workers|
  {
    && rid in w.home && w.home[rid] == i && rid !in w.workers[i].held && rid !in w.c.table.requests
    && (w.workers[i].able ==> rid in w.c.pending && w.c.pending[rid].pid == pid && w.c.pending[rid].index == i)
  }

  ghost predicate HeldOk(w: World, i: nat, rid: string)
    requires i < |w.workers| && rid in w.workers[i].held
  {
    && rid in w.home && w.home[rid] == i
    && (w.workers[i].able ==>
       rid in w.c.pending && w.c.pending[rid].pid == w.workers[i].held[rid].pid && w.c.pending[rid].index == i)
  }

  predicate Final(e: Event) { e.Completion? || e.Failure? || e.Cancellation? }

  predicate Adds(commands: seq<Command>, rid: string) {
    exists k :: 0 <= k < |commands| && commands[k].Add? && commands[k].rid == rid
  }

  /** After the last event of a request its worker no longer knows it; a completed request has left the table. */
  ghost predicate EventOk(w: World, i: nat, e: Event)
    requires i < |w.workers|
  {
    && (Final(e) ==>
          e.rid in w.home && w.home[e.rid] == i && e.rid !in w.workers[i].held && !Adds(w.workers[i].commands, e.rid))
    && (e.Completion? ==> e.rid !in w.c.table.requests)
    && (e.Stopped? ==> !w.workers[i].able)
  }

  ghost predicate WorkerOk(w: World, i: nat)
    requires i < |w.workers|
  {
    var k := w.workers[i];
    && AddsOnce(k.commands)
    && (forall j :: 0 <= j < |k.commands| && k.commands[j].Add? ==> AddOk(w, i, k.commands[j].rid, k.commands[j].pid))
    && (forall j :: 0 <= j < |k.commands| && k.commands[j].Cancel? ==>
       k.commands[j].rid in w.home && w.home[k.commands[j].rid] == i)
    && (forall rid :: rid in k.held ==> HeldOk(w, i, rid))
    && (forall j :: 0 <= j < |k.events| ==> EventOk(w, i, k.events[j]))
    && (i in w.c.failed ==> !k.able) && (k.gone ==> !k.able)
  }

  ghost predicate WorldOk(w: World) {
    && CoordOk(w.c) && |w.c.loads| == |w.workers|
    && w.home.Keys == w.c.futures.Keys
    && (forall rid :: rid in w.c.pending ==> rid in w.home && w.home[rid] == w.c.pending[rid].index)
    && (forall i :: 0 <= i < |w.workers| ==> WorkerOk(w, i))
  }

  // ---- What a step keeps -----------------------------------------------------------------

  /** A worker that did not move stays in order as long as nobody books on its behalf. */
  lemma WorkerStays(w: World, w': World, j: nat)
    requires j < |w.workers| == |w'.workers| && w'.workers[j] == w.workers[j] && WorkerOk(w, j)
    requires forall rid :: rid in w.home ==> rid in w'.home && w'.home[rid] == w.home[rid]
    requires forall rid :: rid in w'.c.table.requests && rid in w.home && w.home[rid] == j ==> rid in w.c.table.requests
    requires forall rid :: rid in w.c.pending && w.c.pending[rid].index == j && w.workers[j].able ==>
      rid in w'.c.pending && w'.c.pending[rid] == w.c.pending[rid]
    requires j in w'.c.failed ==> j in w.c.failed || !w.workers[j].able
    ensures WorkerOk(w', j)
  {
    hide AddsOnce, Adds;
    var k := w.workers[j];
    forall n | 0 <= n < |k.commands| && k.commands[n].Add? ensures AddOk(w', j, k.commands[n].rid, k.commands[n].pid) {
      assert AddOk(w, j, k.commands[n].rid, k.commands[n].pid);
    }
    forall rid | rid in k.held ensures HeldOk(w', j, rid) {
      assert HeldOk(w, j, rid);
    }
    forall n | 0 <= n < |k.events| ensures EventOk(w', j, k.events[n]) {
      assert EventOk(w, j, k.events[n]);
    }
  }

  /** Everyone stays in order when the coordinator's bookings stay as they are or shrink to nobody's loss. */
  lemma AllStay(w: World, w': World)
    requires WorldOk(w) && w'.workers == w.workers && w'.home == w.home && CoordOk(w'.c) && |w'.c.loads| == |w.c.loads|
    requires w'.c.futures.Keys == w.c.futures.Keys
    requires forall rid :: rid in w'.c.pending ==> rid in w.c.pending && w'.c.pending[rid] == w.c.pending[rid]
    requires forall rid :: rid in w.c.pending && rid !in w'.c.pending ==>
      w.c.pending[rid].index < |w.workers| && !w.workers[w.c.pending[rid].index].able
    requires forall rid :: rid in w'.c.table.requests ==> rid in w.c.table.requests
    requires forall j :: 0 <= j < |w.workers| ==> j in w'.c.failed ==> j in w.c.failed || !w.workers[j].able
    ensures WorldOk(w')
  {
    hide WorkerOk, CoordOk;
    forall j | 0 <= j < |w'.workers| ensures WorkerOk(w', j) {
      assert WorkerOk(w, j);
      WorkerStays(w, w', j);
    }
  }

  /** Exchanging the table for one with the same programs and no foreign request. */
  lemma TableSwap(c: Coord, t: Table)
    requires CoordOk(c) && TableOk(t) && t.programs.Keys == c.table.programs.Keys
    requires forall pid :: pid in t.programs ==> !t.programs[pid].closing
    requires forall rid :: rid in t.requests ==> rid in c.pending && c.pending[rid].pid == t.requests[rid]
    ensures CoordOk(c.(table := t))
  {
    hide TableOk;
    var c' := c.(table := t);
    forall i | 0 <= i < |c'.loads| ensures c'.loads[i] == |PendingOn(c', i)| {
      assert PendingOn(c', i) == PendingOn(c, i);
    }
    forall rid | rid in c'.pending ensures ItemOk(c', rid, c'.pending[rid]) {
      assert ItemOk(c, rid, c.pending[rid]);
    }
    forall q | q in c'.sessions && c'.sessions[q].closing ensures HasPending(c', q) {
      assert HasPending(c, q);
    }
  }

  lemma FinishKeepsPrograms(t: Table, pid: string, rid: string, inherited: real, executed: real, waited: real,
                            kind: PolicyKind)
    requires TableOk(t) && (forall q :: q in t.programs ==> !t.programs[q].closing)
    ensures var t' := Finished(t, pid, rid, inherited, executed, waited, kind);
      && t'.programs.Keys == t.programs.Keys && (forall q :: q in t'.programs ==> !t'.programs[q].closing)
      && (Requested(t, pid, rid) ==> t'.requests == t.requests - {rid}) && (!Requested(t, pid, rid) ==> t' == t)
  {
    hide Served;
  }

  lemma GiveBackKeeps(c: Coord, held: map<string, Held>, rid: string, executed: real, waited: real)
    requires CoordOk(c) && executed >= 0.0
    ensures var c' := GiveBack(c, held, rid, executed, waited);
      && CoordOk(c') && c' == c.(table := c'.table)
      && (forall r :: r in c'.table.requests ==> r in c.table.requests && c'.table.requests[r] == c.table.requests[r])
      && (rid in held && rid in c.pending && c.pending[rid].pid == held[rid].pid ==> rid !in c'.table.requests)
  {
    hide TableOk, Finished, PendingOn;
    if rid in held {
      FinishKeeps(c.table, held[rid].pid, rid, held[rid].inherited, executed, waited, c.kind);
      FinishKeepsPrograms(c.table, held[rid].pid, rid, held[rid].inherited, executed, waited, c.kind);
      TableSwap(c, Finished(c.table, held[rid].pid, rid, held[rid].inherited, executed, waited, c.kind));
    }
  }

  lemma ContextTaken(c: Coord, rid: string)
    requires CoordOk(c)
    ensures CoordOk(c.(contexts := c.contexts - {rid}))
  {
    hide TableOk;
    var c' := c.(contexts := c.contexts - {rid});
    forall i | 0 <= i < |c'.loads| ensures c'.loads[i] == |PendingOn(c', i)| {
      assert PendingOn(c', i) == PendingOn(c, i);
    }
    forall r | r in c'.pending ensures ItemOk(c', r, c'.pending[r]) {
      assert ItemOk(c, r, c.pending[r]);
    }
    forall q | q in c'.sessions && c'.sessions[q].closing ensures HasPending(c', q) {
      assert HasPending(c, q);
    }
  }

  /** One worker moves, and the coordinator at most exchanges its table or takes a context. */
  lemma OneMoves(w: World, w': World, i: nat)
    requires WorldOk(w) && i < |w.workers| == |w'.workers| && w'.home == w.home && CoordOk(w'.c)
    requires w'.workers == w.workers[i := w'.workers[i]] && WorkerOk(w', i)
    requires w'.c.pending == w.c.pending && |w'.c.loads| == |w.c.loads| && w'.c.failed == w.c.failed
      && w'.c.futures.Keys == w.c.futures.Keys
    requires forall rid :: rid in w'.c.table.requests && rid !in w.c.table.requests ==>
      rid in w.home && w.home[rid] == i
    ensures WorldOk(w')
  {
    hide WorkerOk, CoordOk;
    forall j | 0 <= j < |w'.workers| && j != i ensures WorkerOk(w', j) {
      assert WorkerOk(w, j);
      WorkerStays(w, w', j);
    }
  }

  // ---- Taking commands -------------------------------------------------------------------

  /** What is left of a worker in order after its first command went. */
  lemma CommandGone(w: World, i: nat, w': World)
    requires i < |w.workers| == |w'.workers| && WorkerOk(w, i) && w.workers[i].commands != [] && w'.home == w.home
    requires w'.workers[i].commands == w.workers[i].commands[1..]
    ensures AddsOnce(w'.workers[i].commands)
    ensures forall rid :: Adds(w'.workers[i].commands, rid) ==> Adds(w.workers[i].commands, rid)
    ensures w.workers[i].commands[0].Add? || w.workers[i].commands[0].Cancel? ==>
      !Adds(w'.workers[i].commands, w.workers[i].commands[0].rid)
    ensures forall j :: 0 <= j < |w'.workers[i].commands| && w'.workers[i].commands[j].Add? ==>
      AddOk(w, i, w'.workers[i].commands[j].rid, w'.workers[i].commands[j].pid)
    ensures forall j :: 0 <= j < |w'.workers[i].commands| && w'.workers[i].commands[j].Cancel? ==>
      w'.workers[i].commands[j].rid in w.home && w.home[w'.workers[i].commands[j].rid] == i
  {
    hide HeldOk, EventOk;
    var was, now := w.workers[i].commands, w'.workers[i].commands;
    forall j | 0 <= j < |now| ensures now[j] == was[j + 1] {
    }
    forall j | 0 <= j < |now| && now[j].Add?
      ensures AddOk(w, i, now[j].rid, now[j].pid)
      ensures was[0].Add? || was[0].Cancel? ==> now[j].rid != was[0].rid
    {
      assert now[j] == was[j + 1];
    }
    forall rid | Adds(now, rid) ensures Adds(was, rid) {
      var j :| 0 <= j < |now| && now[j].Add? && now[j].rid == rid;
      assert was[j + 1].rid == rid;
    }
  }

  /** A worker that lost its first command and reports the end of request `rid`. */
  lemma CommandAnswered(w: World, w': World, i: nat, rid: string, e: Event)
    requires WorldOk(w) && i < |w.workers| == |w'.workers| && w.workers[i].commands != [] && w.workers[i].able
      && w'.home == w.home
    requires w'.workers[i] == w.workers[i].(commands := w.workers[i].commands[1..], held := w.workers[i].held - {rid},
      events := w.workers[i].events + [e])
    requires e.Failure? || e.Cancellation?
    requires e.rid == rid && rid in w.home && w.home[rid] == i && !Adds(w'.workers[i].commands, rid)
    requires w'.c.pending == w.c.pending && w'.c.failed == w.c.failed
      && (forall r :: r in w'.c.table.requests ==> r in w.c.table.requests)
    ensures WorkerOk(w', i)
  {
    hide CoordOk, AddsOnce, Adds;
    assert WorkerOk(w, i);
    CommandGone(w, i, w');
    var k' := w'.workers[i];
    forall j | 0 <= j < |k'.commands| && k'.commands[j].Add?
      ensures AddOk(w', i, k'.commands[j].rid, k'.commands[j].pid) {
      assert AddOk(w, i, k'.commands[j].rid, k'.commands[j].pid);
    }
    forall r | r in k'.held ensures HeldOk(w', i, r) {
      assert HeldOk(w, i, r);
    }
    forall j | 0 <= j < |k'.events| ensures EventOk(w', i, k'.events[j]) {
      if j < |w.workers[i].events| {
        assert EventOk(w, i, w.workers[i].events[j]);
      }
    }
  }

  lemma NotHeldSame(held: map<string, Held>, rid: string)
    requires rid !in held
    ensures held - {rid} == held
  {
  }

  lemma AddHead(w: World, i: nat)
    requires WorldOk(w) && i < |w.workers| && w.workers[i].able && w.workers[i].commands != []
      && w.workers[i].commands[0].Add?
    ensures var add := w.workers[i].commands[0];
      && AddOk(w, i, add.rid, add.pid) && add.rid in w.c.pending && w.c.pending[add.rid].pid == add.pid
  {
    hide CoordOk;
    assert WorkerOk(w, i);
  }

  lemma TakeRefused(w: World, i: nat)
    requires WorldOk(w) && i < |w.workers| && w.workers[i].able && w.workers[i].commands != []
      && w.workers[i].commands[0].Add?
    ensures var add := w.workers[i].commands[0];
      WorldOk(TakeAdd(w, i, w.workers[i].commands[1..], add.rid, add.pid, Refused))
  {
    hide CoordOk, AddsOnce, Adds, WorkerOk;
    var add := w.workers[i].commands[0];
    var w' := TakeAdd(w, i, w.workers[i].commands[1..], add.rid, add.pid, Refused);
    AddHead(w, i);
    assert WorkerOk(w, i);
    CommandGone(w, i, w');
    NotHeldSame(w.workers[i].held, add.rid);
    CommandAnswered(w, w', i, add.rid, Failure(add.rid));
    OneMoves(w, w', i);
  }

  /** What an admission makes of the coordinator's rows. */
  lemma AdmissionKeeps(c: Coord, pid: string, rid: string)
    requires CoordOk(c) && rid in c.pending && c.pending[rid].pid == pid && rid !in c.table.requests
    ensures Admitted(c.table, pid, rid).Ok?
    ensures var t := Admitted(c.table, pid, rid).value;
      && CoordOk(c.(table := t)) && t.requests == c.table.requests[rid := pid]
  {
    hide TableOk, PendingOn;
    assert ItemOk(c, rid, c.pending[rid]);
    AdmitKeeps(c.table, pid, rid);
    var t := Admitted(c.table, pid, rid).value;
    assert t.programs.Keys == c.table.programs.Keys;
    TableSwap(c, t);
  }

  lemma AdmittedThenFailed(c: Coord, pid: string, rid: string, inherited: real)
    requires CoordOk(c) && rid in c.pending && c.pending[rid].pid == pid && rid !in c.table.requests
    ensures Admitted(c.table, pid, rid).Ok?
    ensures var t := Finished(Admitted(c.table, pid, rid).value, pid, rid, inherited, 0.0, 0.0, c.kind);
      && CoordOk(c.(table := t)) && t.requests == c.table.requests
  {
    hide CoordOk, Finished, Admitted;
    AdmissionKeeps(c, pid, rid);
    var c1 := c.(table := Admitted(c.table, pid, rid).value);
    var held := map[rid := Held(pid, inherited)];
    GiveBackKeeps(c1, held, rid, 0.0, 0.0);
    RequestsBack(c1.table, c.table.requests, pid, rid, inherited, c.kind);
  }

  lemma RequestsBack(t: Table, before: map<string, string>, pid: string, rid: string, inherited: real, kind: PolicyKind)
    requires t.requests == before[rid := pid] && rid !in before
    ensures Finished(t, pid, rid, inherited, 0.0, 0.0, kind).requests == before
  {
    assert before[rid := pid] - {rid} == before;
  }

  lemma TakeEngineFails(w: World, i: nat)
    requires WorldOk(w) && i < |w.workers| && w.workers[i].able && w.workers[i].commands != []
      && w.workers[i].commands[0].Add?
    ensures var add := w.workers[i].commands[0];
      WorldOk(TakeAdd(w, i, w.workers[i].commands[1..], add.rid, add.pid, EngineFails))
  {
    hide CoordOk, AddsOnce, Adds, WorkerOk, Finished, Admitted;
    var add := w.workers[i].commands[0];
    var w' := TakeAdd(w, i, w.workers[i].commands[1..], add.rid, add.pid, EngineFails);
    AddHead(w, i);
    assert WorkerOk(w, i);
    CommandGone(w, i, w');
    NotHeldSame(w.workers[i].held, add.rid);
    ContextTaken(w.c, add.rid);
    var c := w.c.(contexts := w.c.contexts - {add.rid});
    AdmittedThenFailed(c, add.pid, add.rid, Inherited(c.kind, c.table, add.pid));
    CommandAnswered(w, w', i, add.rid, Failure(add.rid));
    OneMoves(w, w', i);
  }

  lemma TakeAccepted(w: World, i: nat)
    requires WorldOk(w) && i < |w.workers| && w.workers[i].able && w.workers[i].commands != []
      && w.workers[i].commands[0].Add?
    ensures var add := w.workers[i].commands[0];
      WorldOk(TakeAdd(w, i, w.workers[i].commands[1..], add.rid, add.pid, Accepted))
  {
    hide CoordOk, AddsOnce, Adds, WorkerOk, Admitted;
    var add := w.workers[i].commands[0];
    var w' := TakeAdd(w, i, w.workers[i].commands[1..], add.rid, add.pid, Accepted);
    AddHead(w, i);
    ContextTaken(w.c, add.rid);
    AdmissionKeeps(w.c.(contexts := w.c.contexts - {add.rid}), add.pid, add.rid);
    AcceptedWorker(w, w', i);
    OneMoves(w, w', i);
  }

  lemma AcceptedWorker(w: World, w': World, i: nat)
    requires WorldOk(w) && i < |w.workers| == |w'.workers| && w.workers[i].able && w.workers[i].commands != []
      && w.workers[i].commands[0].Add?
    requires var add := w.workers[i].commands[0];
      && w'.home == w.home && w'.c.pending == w.c.pending && w'.c.failed == w.c.failed
      && w'.c.table.requests == w.c.table.requests[add.rid := add.pid]
      && w'.workers[i].commands == w.workers[i].commands[1..] && w'.workers[i].events == w.workers[i].events
      && w'.workers[i].able == w.workers[i].able && w'.workers[i].gone == w.workers[i].gone
      && add.rid in w'.workers[i].held
      && w'.workers[i].held == w.workers[i].held[add.rid := w'.workers[i].held[add.rid]]
      && w'.workers[i].held[add.rid].pid == add.pid
    ensures WorkerOk(w', i)
  {
    hide CoordOk, AddsOnce;
    assert WorkerOk(w, i);
    AddHead(w, i);
    CommandGone(w, i, w');
    var add, k, k' := w.workers[i].commands[0], w.workers[i], w'.workers[i];
    forall j | 0 <= j < |k'.commands| && k'.commands[j].Add?
      ensures AddOk(w', i, k'.commands[j].rid, k'.commands[j].pid) {
      assert AddOk(w, i, k'.commands[j].rid, k'.commands[j].pid);
      assert k'.commands[j].rid != add.rid;
    }
    forall r | r in k'.held ensures HeldOk(w', i, r) {
      if r != add.rid { assert HeldOk(w, i, r); }
    }
    forall j | 0 <= j < |k'.events| ensures EventOk(w', i, k'.events[j]) {
      assert EventOk(w, i, k.events[j]);
      assert Adds(k.commands, add.rid);
    }
  }

  lemma TakeCancel(w: World, i: nat, outcome: AddOutcome)
    requires WorldOk(w) && i < |w.workers| && w.workers[i].able && w.workers[i].commands != []
      && w.workers[i].commands[0].Cancel?
    ensures WorldOk(Take(w, i, outcome))
  {
    hide CoordOk, AddsOnce, Adds, GiveBack, AddOk, HeldOk, EventOk;
    var w', rid := Take(w, i, outcome), w.workers[i].commands[0].rid;
    assert WorkerOk(w, i);
    CommandGone(w, i, w');
    GiveBackKeeps(w.c, w.workers[i].held, rid, 0.0, 0.0);
    CommandAnswered(w, w', i, rid, Cancellation(rid));
    OneMoves(w, w', i);
  }

  /** A worker that changes only its commands, its liveness, or the events it has yet to deliver. */
  lemma WorkerShrinks(w: World, w': World, i: nat)
    requires WorldOk(w) && i < |w.workers| == |w'.workers| && w'.home == w.home && w'.c.pending == w.c.pending
      && w'.c.failed == w.c.failed
    requires forall rid :: rid in w'.c.table.requests ==> rid in w.c.table.requests
    requires var k, k' := w.workers[i], w'.workers[i];
      && AddsOnce(k'.commands) && (forall rid :: Adds(k'.commands, rid) ==> Adds(k.commands, rid))
      && (forall j :: 0 <= j < |k'.commands| && k'.commands[j].Add? ==>
         AddOk(w, i, k'.commands[j].rid, k'.commands[j].pid))
      && (forall j :: 0 <= j < |k'.commands| && k'.commands[j].Cancel? ==>
         k'.commands[j].rid in w.home && w.home[k'.commands[j].rid] == i)
      && (k'.able ==> k.able) && (k'.gone ==> !k'.able)
      && (forall rid :: rid in k'.held ==> rid in k.held && k'.held[rid] == k.held[rid])
      && (forall j :: 0 <= j < |k'.events| ==>
         k'.events[j] in k.events || k'.events[j].Progress? || (k'.events[j].Stopped? && !k'.able))
    ensures WorkerOk(w', i)
  {
    hide CoordOk, AddsOnce, Adds;
    assert WorkerOk(w, i);
    var k, k' := w.workers[i], w'.workers[i];
    forall j | 0 <= j < |k'.commands| && k'.commands[j].Add?
      ensures AddOk(w', i, k'.commands[j].rid, k'.commands[j].pid) {
      assert AddOk(w, i, k'.commands[j].rid, k'.commands[j].pid);
    }
    forall r | r in k'.held ensures HeldOk(w', i, r) {
      assert HeldOk(w, i, r);
    }
    forall j | 0 <= j < |k'.events| ensures EventOk(w', i, k'.events[j]) {
      if k'.events[j] in k.events {
        var n :| 0 <= n < |k.events| && k.events[n] == k'.events[j];
        assert EventOk(w, i, k.events[n]);
      }
    }
  }

  /** The commands of a worker in order, as they are. */
  lemma CommandsKept(w: World, i: nat)
    requires WorldOk(w) && i < |w.workers|
    ensures var k := w.workers[i];
      && AddsOnce(k.commands) && (k.gone ==> !k.able)
      && (forall j :: 0 <= j < |k.commands| && k.commands[j].Add? ==> AddOk(w, i, k.commands[j].rid, k.commands[j].pid))
      && (forall j :: 0 <= j < |k.commands| && k.commands[j].Cancel? ==>
         k.commands[j].rid in w.home && w.home[k.commands[j].rid] == i)
  {
    hide CoordOk, AddsOnce, AddOk, HeldOk, EventOk;
    assert WorkerOk(w, i);
  }

  lemma TakeQuit(w: World, i: nat, outcome: AddOutcome)
    requires WorldOk(w) && i < |w.workers| && w.workers[i].able && w.workers[i].commands != []
      && w.workers[i].commands[0].Quit?
    ensures WorldOk(Take(w, i, outcome))
  {
    hide CoordOk, AddsOnce, Adds, AddOk, HeldOk, EventOk, WorkerOk;
    var w' := Take(w, i, outcome);
    assert WorkerOk(w, i);
    CommandGone(w, i, w');
    WorkerShrinks(w, w', i);
    OneMoves(w, w', i);
  }

  lemma TakeKeeps(w: World, i: nat, outcome: AddOutcome)
    requires WorldOk(w) && i < |w.workers|
    ensures WorldOk(Take(w, i, outcome))
  {
    hide WorldOk, TakeAdd, GiveBack;
    var k := w.workers[i];
    if k.able && k.commands != [] {
      match k.commands[0]
      case Add(rid, pid) =>
        match outcome {
          case Refused => TakeRefused(w, i);
          case EngineFails => TakeEngineFails(w, i);
          case Accepted => TakeAccepted(w, i);
        }
      case Cancel(rid) => TakeCancel(w, i, outcome);
      case Quit => TakeQuit(w, i, outcome);
    }
  }

  // ---- The other worker steps ------------------------------------------------------------

  lemma ReportKeeps(w: World, i: nat, rid: string)
    requires WorldOk(w) && Enabled(w, Report(i, rid))
    ensures WorldOk(Next(w, Report(i, rid)))
  {
    hide CoordOk, AddsOnce, Adds, AddOk, HeldOk, EventOk, WorkerOk;
    CommandsKept(w, i);
    WorkerShrinks(w, Next(w, Report(i, rid)), i);
    OneMoves(w, Next(w, Report(i, rid)), i);
  }

  lemma BreakKeeps(w: World, i: nat)
    requires WorldOk(w) && Enabled(w, Break(i))
    ensures WorldOk(Next(w, Break(i)))
  {
    hide CoordOk, AddsOnce, Adds, AddOk, HeldOk, EventOk, WorkerOk;
    CommandsKept(w, i);
    WorkerShrinks(w, Next(w, Break(i)), i);
    OneMoves(w, Next(w, Break(i)), i);
  }

  lemma DieKeeps(w: World, i: nat, kept: nat)
    requires WorldOk(w) && Enabled(w, Die(i, kept))
    ensures WorldOk(Next(w, Die(i, kept)))
  {
    hide CoordOk, AddsOnce, Adds, AddOk, HeldOk, EventOk, WorkerOk;
    CommandsKept(w, i);
    WorkerShrinks(w, Next(w, Die(i, kept)), i);
    OneMoves(w, Next(w, Die(i, kept)), i);
  }

  lemma ReleaseKeeps(w: World, i: nat, rid: string, executed: real, waited: real)
    requires WorldOk(w) && Enabled(w, Release(i, rid, executed, waited))
    ensures WorldOk(Next(w, Release(i, rid, executed, waited)))
  {
    hide CoordOk, AddsOnce, Adds, AddOk, HeldOk, EventOk, WorkerOk, GiveBack;
    CommandsKept(w, i);
    GiveBackKeeps(w.c, w.workers[i].held, rid, executed, waited);
    WorkerShrinks(w, Next(w, Release(i, rid, executed, waited)), i);
    OneMoves(w, Next(w, Release(i, rid, executed, waited)), i);
  }

  /** A worker that finished a call: the call has left the table before its result is sent. */
  lemma CompleteKeeps(w: World, i: nat, rid: string, executed: real, waited: real)
    requires WorldOk(w) && i < |w.workers| && executed >= 0.0
    ensures WorldOk(Completed(w, i, rid, executed, waited))
  {
    hide CoordOk, AddsOnce, WorkerOk, GiveBack;
    if w.workers[i].able && rid in w.workers[i].held {
      var w' := Completed(w, i, rid, executed, waited);
      GiveBackKeeps(w.c, w.workers[i].held, rid, executed, waited);
      CompletedWorker(w, w', i, rid);
      OneMoves(w, w', i);
    }
  }

  lemma CompletedWorker(w: World, w': World, i: nat, rid: string)
    requires WorldOk(w) && i < |w.workers| == |w'.workers| && w.workers[i].able && rid in w.workers[i].held
      && w'.home == w.home
    requires w'.workers[i] == w.workers[i].(held := w.workers[i].held - {rid},
      events := w.workers[i].events + [Completion(rid)])
    requires w'.c.pending == w.c.pending && w'.c.failed == w.c.failed
      && (forall r :: r in w'.c.table.requests ==> r in w.c.table.requests)
    requires rid in w.c.pending && w.c.pending[rid].pid == w.workers[i].held[rid].pid ==> rid !in w'.c.table.requests
    ensures WorkerOk(w', i)
  {
    hide CoordOk, AddsOnce;
    assert WorkerOk(w, i);
    assert HeldOk(w, i, rid);
    var k, k' := w.workers[i], w'.workers[i];
    forall j | 0 <= j < |k'.commands| && k'.commands[j].Add?
      ensures AddOk(w', i, k'.commands[j].rid, k'.commands[j].pid) && k'.commands[j].rid != rid {
      assert AddOk(w, i, k.commands[j].rid, k.commands[j].pid);
    }
    forall r | r in k'.held ensures HeldOk(w', i, r) {
      assert HeldOk(w, i, r);
    }
    forall j | 0 <= j < |k'.events| ensures EventOk(w', i, k'.events[j]) {
      if j < |k.events| {
        assert EventOk(w, i, k.events[j]);
      }
    }
  }

  // ---- Coordinator steps ---------------------------------------------------------------------

  lemma StartSessionKeeps(w: World, pid: string)
    requires WorldOk(w)
    ensures WorldOk(w.(c := Started(w.c, pid)))
  {
    hide CoordOk, WorkerOk;
    StartKeeps(w.c, pid);
    StartRows(w.c, pid);
    AllStay(w, w.(c := Started(w.c, pid)));
  }

  lemma StartRows(c: Coord, pid: string)
    ensures var c' := Started(c, pid);
      c'.loads == c.loads && c'.failed == c.failed && c'.futures == c.futures && c'.table.requests == c.table.requests
        && c'.pending == c.pending
  {
  }

  lemma EndSessionKeeps(w: World, pid: string)
    requires WorldOk(w)
    ensures WorldOk(w.(c := Ending(w.c, pid)))
  {
    hide CoordOk, WorkerOk, Ending;
    EndingKeeps(w.c, pid);
    AllStay(w, w.(c := Ending(w.c, pid)));
  }

  lemma SubmissionKeeps(w: World, pid: string, callId: string, rid: string, long: bool, index: nat)
    requires WorldOk(w) && Enabled(w, Submit(pid, callId, rid, long, index))
    ensures WorldOk(Submission(w, pid, callId, rid, long, index))
  {
    hide CoordOk, AddsOnce, WorkerOk, Chosen, SubmitRefused;
    SubmitKeeps(w.c, pid, callId, rid, long, index);
    FreshRid(w, rid);
    var w' := Submission(w, pid, callId, rid, long, index);
    forall j | 0 <= j < |w'.workers| ensures WorkerOk(w', j) {
      assert WorkerOk(w, j);
      if j == index {
        SubmissionWorker(w, w', index, rid, pid);
      } else {
        WorkerStays(w, w', j);
      }
    }
  }

  lemma FreshRid(w: World, rid: string)
    requires WorldOk(w) && rid !in w.c.futures
    ensures rid !in w.c.pending && rid !in w.c.table.requests && rid !in w.home
  {
    hide WorkerOk;
    IsIndexed(w.c);
  }

  lemma SubmissionWorker(w: World, w': World, i: nat, rid: string, pid: string)
    requires WorldOk(w) && i < |w.workers| == |w'.workers| && rid !in w.home && rid !in w.c.table.requests
      && i !in w.c.failed
    requires w'.home == w.home[rid := i] && w'.c.failed == w.c.failed && w'.c.table.requests == w.c.table.requests
    requires rid in w'.c.pending && w'.c.pending == w.c.pending[rid := w'.c.pending[rid]]
      && w'.c.pending[rid].pid == pid && w'.c.pending[rid].index == i
    requires rid !in w.c.pending
    requires w'.workers[i] == w.workers[i].(commands := w.workers[i].commands + [Add(rid, pid)])
    ensures WorkerOk(w', i)
  {
    hide CoordOk;
    assert WorkerOk(w, i);
    var k, k' := w.workers[i], w'.workers[i];
    forall r | r in k.held ensures r != rid {
      assert HeldOk(w, i, r);
    }
    forall j | 0 <= j < |k.commands| && (k.commands[j].Add? || k.commands[j].Cancel?) ensures k.commands[j].rid != rid {
      if k.commands[j].Add? { assert AddOk(w, i, k.commands[j].rid, k.commands[j].pid); }
    }
    forall j | 0 <= j < |k'.commands| && k'.commands[j].Add?
      ensures AddOk(w', i, k'.commands[j].rid, k'.commands[j].pid) {
      if j < |k.commands| { assert AddOk(w, i, k.commands[j].rid, k.commands[j].pid); }
    }
    forall r | r in k'.held ensures HeldOk(w', i, r) {
      assert HeldOk(w, i, r);
    }
    forall j | 0 <= j < |k'.events| ensures EventOk(w', i, k'.events[j]) {
      assert EventOk(w, i, k.events[j]);
      AddsMore(k.commands, Add(rid, pid));
    }
  }

  lemma AddsMore(commands: seq<Command>, last: Command)
    ensures forall rid :: Adds(commands + [last], rid) ==> Adds(commands, rid) || (last.Add? && last.rid == rid)
  {
    forall rid | Adds(commands + [last], rid) ensures Adds(commands, rid) || (last.Add? && last.rid == rid) {
      var k :| 0 <= k < |commands + [last]| && (commands + [last])[k].Add? && (commands + [last])[k].rid == rid;
      if k < |commands| { assert commands[k].rid == rid; }
    }
  }

  /** Cancelling only marks the future; what was booked is given back when the worker answers. */
  lemma CancellingKeeps(w: World, rid: string)
    requires WorldOk(w)
    ensures WorldOk(Cancelling(w, rid))
  {
    hide AddsOnce, WorkerOk, CoordOk;
    var w' := Cancelling(w, rid);
    if w' != w {
      CancelledFuture(w.c, rid);
      CancelWorker(w, w', w.home[rid], rid);
      OneMoves(w, w', w.home[rid]);
    }
  }

  lemma CancelledFuture(c: Coord, rid: string)
    requires CoordOk(c) && rid in c.futures
    ensures CoordOk(c.(futures := c.futures[rid := Cancelled]))
  {
    hide TableOk;
    var c' := c.(futures := c.futures[rid := Cancelled]);
    forall i | 0 <= i < |c'.loads| ensures c'.loads[i] == |PendingOn(c', i)| {
      assert PendingOn(c', i) == PendingOn(c, i);
    }
    forall r | r in c'.pending ensures ItemOk(c', r, c'.pending[r]) {
      assert ItemOk(c, r, c.pending[r]);
    }
    forall q | q in c'.sessions && c'.sessions[q].closing ensures HasPending(c', q) {
      assert HasPending(c, q);
    }
  }

  lemma CancelWorker(w: World, w': World, i: nat, rid: string)
    requires WorldOk(w) && i < |w.workers| == |w'.workers| && rid in w.home && w.home[rid] == i && w'.home == w.home
    requires w'.c.pending == w.c.pending && w'.c.failed == w.c.failed && w'.c.table == w.c.table
    requires w'.workers[i] == w.workers[i].(commands := w.workers[i].commands + [Cancel(rid)])
    ensures WorkerOk(w', i)
  {
    hide CoordOk, HeldOk, EventOk, AddOk, Adds;
    CommandsKept(w, i);
    AddsMore(w.workers[i].commands, Cancel(rid));
    WorkerShrinks(w, w', i);
  }

  lemma AskedKeeps(w: World)
    requires WorldOk(w)
    ensures WorldOk(w.(workers := Asked(w.workers)))
  {
    hide CoordOk, HeldOk, EventOk, AddOk, Adds, WorkerOk;
    var w' := w.(workers := Asked(w.workers));
    forall i | 0 <= i < |w.workers| ensures WorkerOk(w', i) {
      CommandsKept(w, i);
      AddsMore(w.workers[i].commands, Quit);
      QuitLast(w.workers[i].commands);
      WorkerShrinks(w, w', i);
    }
  }

  lemma QuitLast(commands: seq<Command>)
    requires AddsOnce(commands)
    ensures AddsOnce(commands + [Quit])
  {
  }

  /** Delivering the last event of a request: its worker no longer knows it, so nothing is lost with the booking. */
  lemma DeliverKeeps(w: World, i: nat, order: seq<string>)
    requires WorldOk(w) && i < |w.workers| && w.workers[i].events != [] && ListsPending(w.c, i, order)
    ensures WorldOk(Delivery(w, i, order))
  {
    hide CoordOk, WorkerOk, FailReplica, Resolve, ListsPending;
    var event := w.workers[i].events[0];
    var popped := w.(workers := w.workers[i := w.workers[i].(events := w.workers[i].events[1..])]);
    PopKeeps(w, i);
    EventAt(w, i);
    if event.Stopped? {
      FailKeeps(popped, i, order);
    } else {
      ResolveStep(popped, i, event);
    }
  }

  lemma PopKeeps(w: World, i: nat)
    requires WorldOk(w) && i < |w.workers| && w.workers[i].events != []
    ensures WorldOk(w.(workers := w.workers[i := w.workers[i].(events := w.workers[i].events[1..])]))
  {
    hide CoordOk, HeldOk, EventOk, AddOk, Adds, AddsOnce, WorkerOk;
    var w' := w.(workers := w.workers[i := w.workers[i].(events := w.workers[i].events[1..])]);
    CommandsKept(w, i);
    WorkerShrinks(w, w', i);
    OneMoves(w, w', i);
  }

  lemma EventAt(w: World, i: nat)
    requires WorldOk(w) && i < |w.workers| && w.workers[i].events != []
    ensures EventOk(w, i, w.workers[i].events[0])
  {
    hide CoordOk, EventOk, HeldOk, AddOk;
    assert WorkerOk(w, i);
  }

  lemma FailKeeps(w: World, i: nat, order: seq<string>)
    requires WorldOk(w) && i < |w.workers| && !w.workers[i].able && ListsPending(w.c, i, order)
    ensures WorldOk(w.(c := FailReplica(w.c, i, order)))
  {
    hide CoordOk, WorkerOk, FailReplica, ListsPending;
    FailReplicaKeeps(w.c, i, order);
    AllStay(w, w.(c := FailReplica(w.c, i, order)));
  }

  lemma ResolveStep(w: World, i: nat, event: Event)
    requires WorldOk(w) && i < |w.workers| && EventOk(w, i, event) && !event.Stopped?
    ensures WorldOk(w.(c := Resolve(w.c, event.rid, event)))
  {
    hide CoordOk, WorkerOk, Resolve, Adds;
    ResolveKeeps(w.c, event.rid, event);
    var w' := w.(c := Resolve(w.c, event.rid, event));
    forall j | 0 <= j < |w'.workers| ensures WorkerOk(w', j) {
      assert WorkerOk(w, j);
      if event.Progress? || j != i {
        WorkerStays(w, w', j);
      } else {
        ResolvedWorker(w, w', i, event);
      }
    }
  }

  lemma ResolvedWorker(w: World, w': World, i: nat, event: Event)
    requires i < |w.workers| == |w'.workers| && WorkerOk(w, i) && EventOk(w, i, event) && Final(event)
    requires w'.workers == w.workers && w'.home == w.home && w'.c.failed == w.c.failed
    requires w'.c.pending == w.c.pending - {event.rid} && w'.c.table.requests == w.c.table.requests - {event.rid}
    ensures WorkerOk(w', i)
  {
    hide AddsOnce;
    var k := w.workers[i];
    forall j | 0 <= j < |k.commands| && k.commands[j].Add? ensures AddOk(w', i, k.commands[j].rid, k.commands[j].pid) {
      assert AddOk(w, i, k.commands[j].rid, k.commands[j].pid);
    }
    forall r | r in k.held ensures HeldOk(w', i, r) {
      assert HeldOk(w, i, r);
    }
    forall j | 0 <= j < |k.events| ensures EventOk(w', i, k.events[j]) {
      assert EventOk(w, i, k.events[j]);
    }
  }

  // ---- Shutdown --------------------------------------------------------------------------------

  lemma {:induction false} FailAllKeeps(c: Coord, orders: seq<seq<string>>, n: nat)
    requires CoordOk(c) && n <= |orders| && forall i :: 0 <= i < n ==> ListsPending(FailAll(c, orders, i), i, orders[i])
    ensures CoordOk(FailAll(c, orders, n))
    ensures var c' := FailAll(c, orders, n);
      && |c'.loads| == |c.loads| && c'.futures.Keys == c.futures.Keys
      && (forall rid :: rid in c'.pending <==> rid in c.pending && c.pending[rid].index >= n)
      && (forall rid :: rid in c'.pending ==> c'.pending[rid] == c.pending[rid])
      && (forall rid :: rid in c'.table.requests ==> rid in c.table.requests)
  {
    hide CoordOk, FailReplica, ListsPending;
    if n > 0 {
      FailAllKeeps(c, orders, n - 1);
      FailReplicaKeeps(FailAll(c, orders, n - 1), n - 1, orders[n - 1]);
    }
  }

  lemma {:induction false} EndAllKeeps(c: Coord, pids: seq<string>)
    requires CoordOk(c) && c.pending == map[]
    ensures CoordOk(EndAll(c, pids))
    ensures var c' := EndAll(c, pids);
      && c'.pending == map[] && c'.loads == c.loads && c'.failed == c.failed && c'.futures == c.futures
      && c'.table.requests == c.table.requests
      && (forall pid :: pid in c'.sessions ==> pid in c.sessions && pid !in pids)
  {
    hide CoordOk, Ending, HasPending;
    if pids != [] {
      var front, last := pids[..|pids| - 1], pids[|pids| - 1];
      EndAllKeeps(c, front);
      EndingKeeps(EndAll(c, front), last);
      NobodyPends(EndAll(c, front), last);
      assert forall pid :: pid in pids <==> pid in front || pid == last;
      NoLonger(EndAll(c, front), last);
    }
  }

  lemma NoLonger(c: Coord, pid: string)
    requires CoordOk(c) && !HasPending(c, pid)
    ensures pid !in Ending(c, pid).sessions && forall q :: q in Ending(c, pid).sessions ==> q in c.sessions
  {
    EndingKeeps(c, pid);
  }

  /** After a shutdown nothing is left: no pending request, no session, no row, no undone future. */
  lemma ClosingReclaims(c: Coord, orders: seq<seq<string>>)
    requires CoordOk(c) && |orders| == |c.loads| && forall i :: 0 <= i < |orders| ==>
      ListsPending(FailAll(c, orders, i), i, orders[i])
    ensures var c' := Closing(c, orders);
      && CoordOk(c') && |c'.loads| == |c.loads| && c'.futures.Keys == c.futures.Keys
      && c'.closed && c'.pending == map[] && c'.sessions == map[] && c'.table == Table(map[], map[])
      && (forall rid :: rid in c'.futures ==> c'.futures[rid] != Waiting)
  {
    hide CoordOk, FailAll, EndAll, ListsPending, TableOk, PendingOn;
    FailAllKeeps(c, orders, |orders|);
    var failed := FailAll(c, orders, |orders|);
    IsIndexed(c);
    assert failed.pending.Keys == {};
    EndAllKeeps(failed, SetToSeq(failed.sessions.Keys));
    var ended := EndAll(failed, SetToSeq(failed.sessions.Keys));
    ClosedKeeps(ended, Closing(c, orders));
    assert ended.sessions.Keys == {};
    AllReclaimed(Closing(c, orders));
  }

  lemma CloseDownKeeps(w: World, orders: seq<seq<string>>)
    requires WorldOk(w) && Enabled(w, CloseDown(orders))
    ensures WorldOk(w.(c := Closing(w.c, orders)))
  {
    hide CoordOk, WorkerOk, Closing, FailAll, ListsPending;
    ClosingReclaims(w.c, orders);
    IsIndexed(w.c);
    AllStay(w, w.(c := Closing(w.c, orders)));
  }

  // ---- Every interleaving -------------------------------------------------------------------------

  lemma NextOk(w: World, s: Step)
    requires WorldOk(w) && Enabled(w, s)
    ensures WorldOk(Next(w, s))
  {
    hide WorldOk, Take, Completed, Submission, Cancelling, Delivery, Asked, Closing, Started, Ending, FailReplica,
      GiveBack;
    match s
    case StartSession(pid) => StartSessionKeeps(w, pid);
    case EndSession(pid) => EndSessionKeeps(w, pid);
    case Submit(pid, callId, rid, long, index) => SubmissionKeeps(w, pid, callId, rid, long, index);
    case CancelFuture(rid) => CancellingKeeps(w, rid);
    case TakeCommand(i, outcome) => TakeKeeps(w, i, outcome);
    case Report(i, rid) => ReportKeeps(w, i, rid);
    case Complete(i, rid, executed, waited) => CompleteKeeps(w, i, rid, executed, waited);
    case Break(i) => BreakKeeps(w, i);
    case Release(i, rid, executed, waited) => ReleaseKeeps(w, i, rid, executed, waited);
    case Die(i, kept) => DieKeeps(w, i, kept);
    case Deliver(i, order) => DeliverKeeps(w, i, order);
    case DetectDeath(i, order) => DetectKeeps(w, i, order);
    case AskQuit => AskedKeeps(w);
    case CloseDown(orders) => CloseDownKeeps(w, orders);
  }

  lemma DetectKeeps(w: World, i: nat, order: seq<string>)
    requires WorldOk(w) && Enabled(w, DetectDeath(i, order))
    ensures WorldOk(w.(c := FailReplica(w.c, i, order)))
  {
    hide CoordOk, FailReplica, ListsPending, AddOk, HeldOk, EventOk, AddsOnce;
    assert WorkerOk(w, i);
    FailKeeps(w, i, order);
  }

  function Fresh(kind: PolicyKind, n: nat): World {
    World(Coord(kind, map[], map[], seq(n, i => 0), {}, false, map[], Table(map[], map[]), {}, {}),
          seq(n, i => Worker([], [], map[], true, false)), map[])
  }

  /** The world after a sequence of steps, if every one of them could happen. */
  ghost function After(kind: PolicyKind, n: nat, steps: seq<Step>): Option<World> {
    if steps == [] then Some(Fresh(kind, n))
    else
      match After(kind, n, steps[..|steps| - 1])
      case None => None
      case Some(w) => if Enabled(w, steps[|steps| - 1]) then Some(Next(w, steps[|steps| - 1])) else None
  }

  lemma FreshOk(kind: PolicyKind, n: nat)
    ensures WorldOk(Fresh(kind, n))
  {
    var w := Fresh(kind, n);
    forall i | 0 <= i < |w.c.loads| ensures w.c.loads[i] == |PendingOn(w.c, i)| {
      assert PendingOn(w.c, i) == {};
    }
  }

  lemma {:induction false} AfterOk(kind: PolicyKind, n: nat, steps: seq<Step>)
    ensures After(kind, n, steps).Some? ==> WorldOk(After(kind, n, steps).value)
  {
    hide WorldOk, Next, Enabled, Fresh;
    if steps == [] {
      FreshOk(kind, n);
    } else {
      AfterOk(kind, n, steps[..|steps| - 1]);
      if After(kind, n, steps).Some? {
        NextOk(After(kind, n, steps[..|steps| - 1]).value, steps[|steps| - 1]);
      }
    }
  }

  /** In every interleaving: replica loads count the pending requests, a future is done once its request is no longer
      pending, every request row belongs to a pending request, and `active` counts the rows of its program. */
  lemma BookkeepingHolds(kind: PolicyKind, n: nat, steps: seq<Step>)
    requires After(kind, n, steps).Some?
    ensures var c := After(kind, n, steps).value.c;
      && (forall i :: 0 <= i < |c.loads| ==> c.loads[i] == |PendingOn(c, i)|)
      && (forall rid :: rid in c.futures && rid !in c.pending ==> c.futures[rid] != Waiting)
      && (forall rid :: rid in c.table.requests ==> rid in c.pending && c.pending[rid].pid == c.table.requests[rid])
      && (forall pid :: pid in c.table.programs ==>
         pid in c.sessions && c.table.programs[pid].active == |RequestsOf(c.table, pid)|)
      && c.activity == c.pending.Keys && c.contexts <= c.pending.Keys
  {
    hide WorkerOk, After;
    AfterOk(kind, n, steps);
  }

  /** In every interleaving: once nothing is pending and every session has been ended, the shared table is empty. */
  lemma NothingLeft(kind: PolicyKind, n: nat, steps: seq<Step>)
    requires After(kind, n, steps).Some?
    requires var c := After(kind, n, steps).value.c; c.pending == map[] && forall pid :: pid in c.sessions ==>
      c.sessions[pid].closing
    ensures var c := After(kind, n, steps).value.c;
      && c.table == Table(map[], map[]) && c.sessions == map[] && c.activity == {} && c.contexts == {}
      && (forall i :: 0 <= i < |c.loads| ==> c.loads[i] == 0)
      && (forall rid :: rid in c.futures ==> c.futures[rid] != Waiting)
  {
    hide WorkerOk, After, CoordOk;
    AfterOk(kind, n, steps);
    AllReclaimed(After(kind, n, steps).value.c);
  }

  /** After the last step of a shutdown nothing is booked and every future is done, whatever happened before. */
  lemma ShutdownReclaims(kind: PolicyKind, n: nat, steps: seq<Step>, orders: seq<seq<string>>)
    requires After(kind, n, steps).Some? && Enabled(After(kind, n, steps).value, CloseDown(orders))
    ensures var w := After(kind, n, steps).value;
      var c := Next(w, CloseDown(orders)).c;
      && c.closed && c.pending == map[] && c.sessions == map[] && c.table == Table(map[], map[])
      && (forall rid :: rid in c.futures ==> c.futures[rid] != Waiting)
      && c.futures.Keys == w.c.futures.Keys
  {
    hide WorkerOk, After, CoordOk, Closing, FailAll, ListsPending;
    AfterOk(kind, n, steps);
    ClosingReclaims(After(kind, n, steps).value.c, orders);
  }

  // ---- How futures end -------------------------------------------------------------------------

  /** The listener takes the event `e` of some worker. */
  ghost predicate Delivers(w: World, s: Step, e: Event) {
    s.Deliver? && s.i < |w.workers| && w.workers[s.i].events != [] && w.workers[s.i].events[0] == e
  }

  /** Replica `i` is given up: it reported that it stopped, its process is found dead, or the engine shuts down. */
  ghost predicate GivesUp(w: World, s: Step, i: nat) {
    || (Delivers(w, s, Stopped) && s.i == i)
    || (s.DetectDeath? && s.i == i)
    || s.CloseDown?
  }

  /** A future that is done never changes. A waiting one belongs to a pending request; it gets its result exactly when a
      completion of its request is delivered, fails exactly when a failure of its request is delivered or its replica is
      given up, and is cancelled exactly by its client or when a cancellation of its request is delivered. */
  ghost predicate FutureMoves(w: World, s: Step, w': World, rid: string) {
    rid in w.c.futures ==>
      && rid in w'.c.futures
      && (w.c.futures[rid] != Waiting ==> w'.c.futures[rid] == w.c.futures[rid])
      && (w.c.futures[rid] == Waiting ==>
           && rid in w.c.pending
           && (w'.c.futures[rid] == Resolved <==> Delivers(w, s, Completion(rid)))
           && (w'.c.futures[rid] == Failed <==> Delivers(w, s, Failure(rid)) || GivesUp(w, s, w.c.pending[rid].index))
           && (w'.c.futures[rid] == Cancelled <==> Delivers(w, s, Cancellation(rid)) || s == CancelFuture(rid)))
  }

  lemma {:induction false} FailAllFutures(c: Coord, orders: seq<seq<string>>, n: nat)
    requires CoordOk(c) && n <= |orders| && forall i :: 0 <= i < n ==> ListsPending(FailAll(c, orders, i), i, orders[i])
    ensures var c' := FailAll(c, orders, n);
      && c'.futures.Keys == c.futures.Keys
      && forall r :: r in c.futures ==>
        c'.futures[r] ==
          if r in c.pending && c.pending[r].index < n && c.futures[r] == Waiting then Failed else c.futures[r]
  {
    hide CoordOk, FailReplica, ListsPending;
    if n > 0 {
      FailAllFutures(c, orders, n - 1);
      FailAllKeeps(c, orders, n - 1);
      FailReplicaFutures(FailAll(c, orders, n - 1), n - 1, orders[n - 1]);
    }
  }

  lemma ClosingFutures(c: Coord, orders: seq<seq<string>>)
    requires CoordOk(c) && |orders| == |c.loads| && forall i :: 0 <= i < |orders| ==>
      ListsPending(FailAll(c, orders, i), i, orders[i])
    ensures var c' := Closing(c, orders);
      && c'.futures.Keys == c.futures.Keys
      && forall r :: r in c.futures ==> c'.futures[r] == if c.futures[r] == Waiting then Failed else c.futures[r]
  {
    hide CoordOk, FailAll, EndAll, ListsPending, TableOk, PendingOn;
    FailAllFutures(c, orders, |orders|);
    FailAllKeeps(c, orders, |orders|);
    IsIndexed(c);
    var failed := FailAll(c, orders, |orders|);
    assert failed.pending.Keys == {};
    EndAllKeeps(failed, SetToSeq(failed.sessions.Keys));
    forall r | r in c.futures && c.futures[r] == Waiting ensures r in c.pending && c.pending[r].index < |orders| {
      WaitingPends(c, r);
    }
  }

  lemma WaitingPends(c: Coord, rid: string)
    requires CoordOk(c) && rid in c.futures && c.futures[rid] == Waiting
    ensures rid in c.pending && c.pending[rid].index < |c.loads|
  {
    assert rid in c.pending;
    assert ItemOk(c, rid, c.pending[rid]);
  }

  lemma StepFutures(w: World, s: Step, rid: string)
    requires WorldOk(w) && Enabled(w, s)
    ensures FutureMoves(w, s, Next(w, s), rid)
  {
    hide WorldOk, FutureMoves, Next, Enabled;
    match s
    case Deliver(i, order) =>
      DeliveryFutures(w, i, order, rid);
    case DetectDeath(i, order) =>
      DetectFutures(w, i, order, rid);
    case CloseDown(orders) =>
      CloseFutures(w, orders, rid);
    case CancelFuture(r) =>
      CancelFutures(w, r, rid);
    case _ =>
      QuietFutures(w, s, rid);
  }

  lemma DetectFutures(w: World, i: nat, order: seq<string>, rid: string)
    requires WorldOk(w) && Enabled(w, DetectDeath(i, order))
    ensures FutureMoves(w, DetectDeath(i, order), Next(w, DetectDeath(i, order)), rid)
  {
    hide WorkerOk, CoordOk, FailReplica, ListsPending;
    if rid in w.c.futures && w.c.futures[rid] == Waiting {
      WaitingPends(w.c, rid);
    }
    FailReplicaFutures(w.c, i, order);
  }

  lemma CloseFutures(w: World, orders: seq<seq<string>>, rid: string)
    requires WorldOk(w) && Enabled(w, CloseDown(orders))
    ensures FutureMoves(w, CloseDown(orders), Next(w, CloseDown(orders)), rid)
  {
    hide WorkerOk, CoordOk, Closing, ListsPending, FailAll;
    if rid in w.c.futures && w.c.futures[rid] == Waiting {
      WaitingPends(w.c, rid);
    }
    ClosingFutures(w.c, orders);
  }

  lemma CancelFutures(w: World, r: string, rid: string)
    requires WorldOk(w) && Enabled(w, CancelFuture(r))
    ensures FutureMoves(w, CancelFuture(r), Next(w, CancelFuture(r)), rid)
  {
    hide WorkerOk, CoordOk;
    if rid in w.c.futures && w.c.futures[rid] == Waiting {
      WaitingPends(w.c, rid);
    }
  }

  lemma QuietFutures(w: World, s: Step, rid: string)
    requires WorldOk(w) && Enabled(w, s) && !s.Deliver? && !s.DetectDeath? && !s.CloseDown? && !s.CancelFuture?
    ensures FutureMoves(w, s, Next(w, s), rid)
  {
    QuietStep(w, s);
    hide WorkerOk, CoordOk, Next, Enabled, FutureMoves;
    if rid in w.c.futures && w.c.futures[rid] == Waiting {
      WaitingPends(w.c, rid);
    }
    QuietMoves(w, s, Next(w, s), rid);
  }

  lemma QuietMoves(w: World, s: Step, w': World, rid: string)
    requires !s.Deliver? && !s.DetectDeath? && !s.CloseDown? && !s.CancelFuture?
    requires rid in w.c.futures ==> rid in w'.c.futures && w'.c.futures[rid] == w.c.futures[rid]
    requires rid in w.c.futures && w.c.futures[rid] == Waiting ==> rid in w.c.pending
    ensures FutureMoves(w, s, w', rid)
  {
  }

  lemma DeliveryFutures(w: World, i: nat, order: seq<string>, rid: string)
    requires WorldOk(w) && Enabled(w, Deliver(i, order))
    ensures FutureMoves(w, Deliver(i, order), Next(w, Deliver(i, order)), rid)
  {
    hide WorkerOk, CoordOk, FailReplica, Resolve, ListsPending;
    if rid in w.c.futures && w.c.futures[rid] == Waiting {
      WaitingPends(w.c, rid);
    }
    var event := w.workers[i].events[0];
    if event.Stopped? {
      FailReplicaFutures(w.c, i, order);
    } else {
      if event.rid in w.c.pending {
        BookedFuture(w.c, event.rid);
      }
      ResolveFutures(w.c, event.rid, event);
    }
  }

  /** The other steps leave the futures that exist as they are. */
  lemma QuietStep(w: World, s: Step)
    requires Enabled(w, s) && !s.Deliver? && !s.DetectDeath? && !s.CloseDown? && !s.CancelFuture?
    ensures forall rid :: rid in w.c.futures ==>
      rid in Next(w, s).c.futures && Next(w, s).c.futures[rid] == w.c.futures[rid]
    ensures forall rid :: rid in Next(w, s).c.futures && rid !in w.c.futures ==> Next(w, s).c.futures[rid] == Waiting
  {
    hide Admitted, Finished, Ended, Opened, HasPending;
  }

  /** In every interleaving: how a future ended tells what happened to its request while the future was waiting. */
  lemma {:induction false} FutureHistory(kind: PolicyKind, n: nat, steps: seq<Step>, rid: string)
    requires After(kind, n, steps).Some?
    requires rid in After(kind, n, steps).value.c.futures && After(kind, n, steps).value.c.futures[rid] != Waiting
    ensures exists k :: 0 <= k < |steps| && EndsAt(kind, n, steps, k, rid, After(kind, n, steps).value.c.futures[rid])
  {
    hide After, WorldOk, FutureMoves, Next, Enabled, Fresh, EndsAt;
    AfterUnroll(kind, n, steps);
    if steps == [] {
      FreshEmpty(kind, n);
    } else {
      var front, last := steps[..|steps| - 1], steps[|steps| - 1];
      var before := After(kind, n, front).value;
      AfterOk(kind, n, front);
      StepFutures(before, last, rid);
      if rid !in before.c.futures {
        FreshRequest(before, last, rid);
      }
      var now := After(kind, n, steps).value.c.futures[rid];
      if rid in before.c.futures && before.c.futures[rid] != Waiting {
        FutureHistory(kind, n, front, rid);
        DoneStays(before, last, rid);
        var k :| 0 <= k < |front| && EndsAt(kind, n, front, k, rid, now);
        EndsEarlier(kind, n, steps, k, rid, now);
      } else {
        EndsLast(kind, n, steps, rid);
      }
    }
  }

  /** A future that is done at some point of a run is done in the same way ever after. */
  lemma {:induction false} DoneForGood(kind: PolicyKind, n: nat, steps: seq<Step>, k: nat, rid: string)
    requires k <= |steps| && After(kind, n, steps).Some? && After(kind, n, steps[..k]).Some?
    requires var c := After(kind, n, steps[..k]).value.c; rid in c.futures && c.futures[rid] != Waiting
    ensures var was, c := After(kind, n, steps[..k]).value.c, After(kind, n, steps).value.c;
      rid in c.futures && c.futures[rid] == was.futures[rid]
  {
    hide After, WorldOk, FutureMoves, Next, Enabled;
    if k == |steps| {
      TakeAll(steps);
    } else {
      var front, last := steps[..|steps| - 1], steps[|steps| - 1];
      AfterUnroll(kind, n, steps);
      assert front[..k] == steps[..k];
      DoneForGood(kind, n, front, k, rid);
      AfterOk(kind, n, front);
      StepFutures(After(kind, n, front).value, last, rid);
      DoneStays(After(kind, n, front).value, last, rid);
    }
  }

  /** Step `k` of the run ends the future in the given way. */
  ghost predicate EndsAt(kind: PolicyKind, n: nat, steps: seq<Step>, k: nat, rid: string, state: FutureState) {
    && k < |steps| && After(kind, n, steps[..k]).Some?
    && var w, s := After(kind, n, steps[..k]).value, steps[k];
      && rid in w.c.futures && w.c.futures[rid] == Waiting && rid in w.c.pending
      && match state
         case Resolved => Delivers(w, s, Completion(rid))
         case Failed => Delivers(w, s, Failure(rid)) || GivesUp(w, s, w.c.pending[rid].index)
         case Cancelled => Delivers(w, s, Cancellation(rid)) || s == CancelFuture(rid)
         case Waiting => false
  }

  lemma AfterUnroll(kind: PolicyKind, n: nat, steps: seq<Step>)
    requires After(kind, n, steps).Some?
    ensures steps == [] ==> After(kind, n, steps).value == Fresh(kind, n)
    ensures steps != [] ==>
      var front, last := steps[..|steps| - 1], steps[|steps| - 1];
      && After(kind, n, front).Some? && Enabled(After(kind, n, front).value, last)
      && After(kind, n, steps).value == Next(After(kind, n, front).value, last)
  {
    hide Next, Enabled, Fresh;
  }

  lemma FreshEmpty(kind: PolicyKind, n: nat)
    ensures Fresh(kind, n).c.futures == map[]
  {
  }

  lemma DoneStays(w: World, s: Step, rid: string)
    requires Enabled(w, s) && FutureMoves(w, s, Next(w, s), rid) && rid in w.c.futures && w.c.futures[rid] != Waiting
    ensures rid in Next(w, s).c.futures && Next(w, s).c.futures[rid] == w.c.futures[rid]
  {
    hide Next, Enabled;
  }

  /** A new future waits. */
  lemma FreshRequest(w: World, s: Step, rid: string)
    requires WorldOk(w) && Enabled(w, s) && rid !in w.c.futures && rid in Next(w, s).c.futures
    ensures Next(w, s).c.futures[rid] == Waiting
  {
    hide WorkerOk, CoordOk, Resolve, FailReplica;
    match s
    case Deliver(i, order) =>
      var event := w.workers[i].events[0];
      if event.Stopped? {
        FailReplicaFutures(w.c, i, order);
      } else {
        if event.rid in w.c.pending {
          BookedFuture(w.c, event.rid);
        }
        ResolveFutures(w.c, event.rid, event);
      }
    case DetectDeath(i, order) =>
      FailReplicaFutures(w.c, i, order);
    case CloseDown(orders) =>
      hide Closing;
      ClosingFutures(w.c, orders);
    case CancelFuture(_) =>
    case _ =>
      QuietStep(w, s);
  }

  lemma EndsEarlier(kind: PolicyKind, n: nat, steps: seq<Step>, k: nat, rid: string, state: FutureState)
    requires steps != [] && EndsAt(kind, n, steps[..|steps| - 1], k, rid, state)
    ensures EndsAt(kind, n, steps, k, rid, state)
  {
    hide After, Delivers, GivesUp;
    assert steps[..|steps| - 1][..k] == steps[..k];
  }

  lemma EndsLast(kind: PolicyKind, n: nat, steps: seq<Step>, rid: string)
    requires steps != [] && After(kind, n, steps[..|steps| - 1]).Some? && After(kind, n, steps).Some?
    requires var w, w' := After(kind, n, steps[..|steps| - 1]).value, After(kind, n, steps).value;
      && FutureMoves(w, steps[|steps| - 1], w', rid) && rid in w.c.futures && w.c.futures[rid] == Waiting
      && rid in w'.c.futures && w'.c.futures[rid] != Waiting
    ensures EndsAt(kind, n, steps, |steps| - 1, rid, After(kind, n, steps).value.c.futures[rid])
  {
    hide After, Delivers, GivesUp;
  }

  // ---- Where events come from ---------------------------------------------------------------------

  /** What makes worker `i` report `e`: it finished a call that it held, took the command to add or to cancel it, or
      stopped. */
  ghost predicate Reports(w: World, s: Step, i: nat, e: Event)
    requires i < |w.workers|
  {
    var k := w.workers[i];
    match e
    case Completion(rid) => s.Complete? && s.i == i && s.rid == rid && k.able && rid in k.held
    case Progress(rid) => s.Report? && s.i == i && s.rid == rid && k.able && rid in k.held
    case Failure(rid) =>
      s.TakeCommand? && s.i == i && k.able && k.commands != [] && k.commands[0].Add? && k.commands[0].rid == rid
    case Cancellation(rid) => s.TakeCommand? && s.i == i && k.able && k.commands != [] && k.commands[0] == Cancel(rid)
    case Stopped =>
      || (s.Break? && s.i == i)
      || (s.TakeCommand? && s.i == i && k.able && k.commands != [] && k.commands[0] == Quit)
  }

  /** A step adds to the events of a worker only what the worker reports in it. */
  lemma EventsGrow(w: World, s: Step, i: nat, e: Event)
    requires Enabled(w, s) && i < |w.workers| && |Next(w, s).workers| == |w.workers|
    requires e in Next(w, s).workers[i].events
    ensures e in w.workers[i].events || Reports(w, s, i, e)
  {
    hide Resolve, FailReplica, Closing, Started, Ending, Submitted, Admitted, Finished;
  }

  /** A step adds to the commands of a worker the request that is submitted to it, or the cancellation that its client
      asks for while the future waits. */
  lemma CommandsGrow(w: World, s: Step, i: nat, c: Command)
    requires Enabled(w, s) && i < |w.workers| && |Next(w, s).workers| == |w.workers|
    requires c in Next(w, s).workers[i].commands
    ensures c in w.workers[i].commands || c == Quit
      || (c.Cancel? && s == CancelFuture(c.rid) && c.rid in w.c.futures && w.c.futures[c.rid] == Waiting)
      || (c.Add? && s.Submit? && s.rid == c.rid && s.pid == c.pid && s.index == i)
  {
    hide Resolve, FailReplica, Closing, Started, Ending, Submitted, Admitted, Finished;
  }

  /** A cancellation is on its way only for a future that its client cancelled. */
  ghost predicate CancelsAsked(w: World) {
    forall i, rid ::
      0 <= i < |w.workers| && (Cancel(rid) in w.workers[i].commands || Cancellation(rid) in w.workers[i].events) ==>
        rid in w.c.futures && w.c.futures[rid] == Cancelled
  }

  lemma NextWorkers(w: World, s: Step)
    requires Enabled(w, s)
    ensures |Next(w, s).workers| == |w.workers|
  {
  }

  lemma CancelsStay(w: World, s: Step)
    requires WorldOk(w) && Enabled(w, s) && CancelsAsked(w)
    ensures CancelsAsked(Next(w, s))
  {
    hide Next, Enabled, WorldOk, FutureMoves;
    NextWorkers(w, s);
    var w' := Next(w, s);
    forall i, rid | 0 <= i < |w'.workers|
      && (Cancel(rid) in w'.workers[i].commands || Cancellation(rid) in w'.workers[i].events)
      ensures rid in w'.c.futures && w'.c.futures[rid] == Cancelled
    {
      StepFutures(w, s, rid);
      if Cancel(rid) in w'.workers[i].commands {
        CommandsGrow(w, s, i, Cancel(rid));
      } else {
        EventsGrow(w, s, i, Cancellation(rid));
        HeadCommand(w, s, i, rid);
      }
      CancelledMoves(w, s, rid);
    }
  }

  lemma HeadCommand(w: World, s: Step, i: nat, rid: string)
    requires i < |w.workers|
    ensures Reports(w, s, i, Cancellation(rid)) ==> Cancel(rid) in w.workers[i].commands
  {
  }

  lemma CancelledMoves(w: World, s: Step, rid: string)
    requires Enabled(w, s) && FutureMoves(w, s, Next(w, s), rid) && rid in w.c.futures
    ensures rid in Next(w, s).c.futures
    ensures w.c.futures[rid] == Cancelled || (w.c.futures[rid] == Waiting && s == CancelFuture(rid)) ==>
      Next(w, s).c.futures[rid] == Cancelled
  {
    hide Next, Enabled, Delivers, GivesUp;
  }

  lemma {:induction false} AfterCancels(kind: PolicyKind, n: nat, steps: seq<Step>)
    requires After(kind, n, steps).Some?
    ensures CancelsAsked(After(kind, n, steps).value)
  {
    hide After, WorldOk, Next, Enabled, CancelsAsked, Fresh;
    AfterUnroll(kind, n, steps);
    if steps == [] {
      FreshCancels(kind, n);
    } else {
      AfterCancels(kind, n, steps[..|steps| - 1]);
      AfterOk(kind, n, steps[..|steps| - 1]);
      CancelsStay(After(kind, n, steps[..|steps| - 1]).value, steps[|steps| - 1]);
    }
  }

  lemma FreshCancels(kind: PolicyKind, n: nat)
    ensures CancelsAsked(Fresh(kind, n))
  {
  }

  /** In every interleaving: a future is cancelled only by its client. */
  lemma CancelledByClient(kind: PolicyKind, n: nat, steps: seq<Step>, s: Step, rid: string)
    requires After(kind, n, steps).Some? && Enabled(After(kind, n, steps).value, s)
    requires var w := After(kind, n, steps).value; rid in w.c.futures && w.c.futures[rid] == Waiting
    ensures var w := After(kind, n, steps).value;
      rid in Next(w, s).c.futures && (Next(w, s).c.futures[rid] == Cancelled <==> s == CancelFuture(rid))
  {
    hide After, WorldOk, Next, Enabled;
    AfterOk(kind, n, steps);
    AfterCancels(kind, n, steps);
    StepFutures(After(kind, n, steps).value, s, rid);
  }

  /** Step `k` of the run is worker `i` finishing a call that it holds. */
  ghost predicate FinishesAt(kind: PolicyKind, n: nat, steps: seq<Step>, k: nat, i: nat, rid: string) {
    && k < |steps| && After(kind, n, steps[..k]).Some? && i < |After(kind, n, steps[..k]).value.workers|
    && var worker := After(kind, n, steps[..k]).value.workers[i];
      steps[k].Complete? && steps[k].i == i && steps[k].rid == rid && worker.able && rid in worker.held
  }

  /** In every interleaving: a completion was reported by a worker that held the call and finished it. */
  lemma {:induction false} CompletionHistory(kind: PolicyKind, n: nat, steps: seq<Step>, i: nat, rid: string)
    requires After(kind, n, steps).Some? && i < |After(kind, n, steps).value.workers|
    requires Completion(rid) in After(kind, n, steps).value.workers[i].events
    ensures exists k :: 0 <= k < |steps| && FinishesAt(kind, n, steps, k, i, rid)
  {
    hide After, Next, Enabled, Fresh, FinishesAt;
    AfterUnroll(kind, n, steps);
    if steps == [] {
      FreshEvents(kind, n);
    } else {
      var front, last := steps[..|steps| - 1], steps[|steps| - 1];
      var w := After(kind, n, front).value;
      NextWorkers(w, last);
      EventsGrow(w, last, i, Completion(rid));
      if Completion(rid) in w.workers[i].events {
        CompletionHistory(kind, n, front, i, rid);
        var k :| 0 <= k < |front| && FinishesAt(kind, n, front, k, i, rid);
        FinishesEarlier(kind, n, steps, k, i, rid);
      } else {
        FinishesNow(kind, n, steps, i, rid);
      }
    }
  }

  lemma FreshEvents(kind: PolicyKind, n: nat)
    ensures forall i :: 0 <= i < |Fresh(kind, n).workers| ==> Fresh(kind, n).workers[i].events == []
  {
  }

  lemma FinishesEarlier(kind: PolicyKind, n: nat, steps: seq<Step>, k: nat, i: nat, rid: string)
    requires steps != [] && FinishesAt(kind, n, steps[..|steps| - 1], k, i, rid)
    ensures FinishesAt(kind, n, steps, k, i, rid)
  {
    hide After;
    assert steps[..|steps| - 1][..k] == steps[..k];
  }

  lemma FinishesNow(kind: PolicyKind, n: nat, steps: seq<Step>, i: nat, rid: string)
    requires steps != [] && After(kind, n, steps[..|steps| - 1]).Some?
    requires var w := After(kind, n, steps[..|steps| - 1]).value;
      i < |w.workers| && Reports(w, steps[|steps| - 1], i, Completion(rid))
    ensures FinishesAt(kind, n, steps, |steps| - 1, i, rid)
  {
    hide After;
  }
}
