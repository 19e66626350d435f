/** What online ATLAS computes: after any interleaving of admissions and completions from any number of processes,
 *  the service of a program is the heaviest chain of its finished calls, each admitted after the one before
 *  finished. */
module AtlasChains {
  import opened Sequences
  import opened ProgramTables

  /** A finished call: when it was admitted, when it finished, and what it used. */
  datatype Job = Job(admitted: nat, finished: nat, executed: real, waited: real)

  /** What the scheduler that admitted a call remembers of it. */
  datatype Ticket = Ticket(pid: string, inherited: real, admitted: nat)

  /** The table, the admitted calls of all processes, and the history of every open program. Request ids are never
      reused. */
  datatype World = World(kind: PolicyKind, table: Table, live: map<string, Ticket>, done: map<string, seq<Job>>,
    used: set<string>, clock: nat)

  datatype Action =
    | OpenSession(pid: string)
    | AdmitCall(pid: string, rid: string)
    | FinishCall(rid: string, executed: real, waited: real)
    | FailCall(pid: string, rid: string)
    | EndSession(pid: string)

  function Act(w: World, a: Action): World {
    var next := w.(clock := w.clock + 1);
    match a
    case OpenSession(pid) =>
      (match Opened(w.table, pid)
       case Ok(t) => next.(table := t, done := w.done[pid := []])
       case Err(_) => next)
    case AdmitCall(pid, rid) =>
      if rid in w.used then next
      else
        (match Admitted(w.table, pid, rid)
         case Ok(t) => next.(table := t, used := w.used + {rid},
                             live := w.live[rid := Ticket(pid, Inherits(w.kind, w.table.programs[pid].service),
                               w.clock)])
         case Err(_) => next)
    case FinishCall(rid, executed, waited) =>
      if rid !in w.live then next
      else
        var k := w.live[rid];
        var counts := Requested(w.table, k.pid, rid) && k.pid in w.table.programs && k.pid in w.done;
        next.(table := Finished(w.table, k.pid, rid, k.inherited, executed, waited, w.kind), live := w.live - {rid},
              done := if counts then w.done[k.pid := w.done[k.pid] + [Job(k.admitted, w.clock, executed, waited)]]
                else w.done)
    case FailCall(pid, rid) => next.(table := Finished(w.table, pid, rid, 0.0, 0.0, 0.0, w.kind))
    case EndSession(pid) => next.(table := Ended(w.table, pid))
  }

  /** Any sequence of actions is an interleaving of processes. */
  function Run(kind: PolicyKind, actions: seq<Action>): World {
    if actions == [] then World(kind, Table(map[], map[]), map[], map[], {}, 0)
    else Act(Run(kind, actions[..|actions| - 1]), actions[|actions| - 1])
  }

  /** Elapsed times are never negative. */
  predicate Sane(a: Action) { a.FinishCall? ==> a.executed >= 0.0 && a.waited >= 0.0 }

  // ---- Chains ------------------------------------------------------------------------

  /** Finished calls, each admitted after the previous one finished, all finished before `at`. */
  ghost predicate IsChain(jobs: seq<Job>, chain: seq<nat>, at: nat) {
    && (forall k :: 0 <= k < |chain| ==> chain[k] < |jobs|)
    && (forall k :: 0 < k < |chain| ==> jobs[chain[k - 1]].finished < jobs[chain[k]].admitted)
    && (chain != [] ==> jobs[chain[|chain| - 1]].finished < at)
  }

  function Used(jobs: seq<Job>, k: nat): real { if k < |jobs| then jobs[k].executed else 0.0 }

  function Weight(jobs: seq<Job>, chain: seq<nat>): real {
    if chain == [] then 0.0 else Weight(jobs, chain[..|chain| - 1]) + Used(jobs, chain[|chain| - 1])
  }

  /** `value` is the weight of the heaviest chain finished before `at`. */
  ghost predicate Heaviest(jobs: seq<Job>, at: nat, value: real) {
    && (forall chain :: IsChain(jobs, chain, at) ==> Weight(jobs, chain) <= value)
    && (exists chain :: IsChain(jobs, chain, at) && Weight(jobs, chain) == value)
  }

  function TotalExecuted(jobs: seq<Job>): real {
    if jobs == [] then 0.0 else TotalExecuted(jobs[..|jobs| - 1]) + jobs[|jobs| - 1].executed
  }

  function TotalWaited(jobs: seq<Job>): real {
    if jobs == [] then 0.0 else TotalWaited(jobs[..|jobs| - 1]) + jobs[|jobs| - 1].waited
  }

  ghost predicate InTime(jobs: seq<Job>, clock: nat) {
    forall k :: 0 <= k < |jobs| ==> jobs[k].admitted < jobs[k].finished < clock && jobs[k].executed >= 0.0
  }

  lemma {:induction false} WeightSame(jobs: seq<Job>, more: seq<Job>, chain: seq<nat>)
    requires forall k :: 0 <= k < |chain| ==> chain[k] < |jobs|
    ensures Weight(jobs + more, chain) == Weight(jobs, chain)
  {
    if chain != [] {
      WeightSame(jobs, more, chain[..|chain| - 1]);
    }
  }

  lemma {:induction false} ChainClimbs(jobs: seq<Job>, clock: nat, chain: seq<nat>, at: nat, k: nat)
    requires InTime(jobs, clock) && IsChain(jobs, chain, at) && k < |chain|
    ensures jobs[chain[k]].finished < at
    decreases |chain| - k
  {
    if k < |chain| - 1 {
      ChainClimbs(jobs, clock, chain, at, k + 1);
    }
  }

  /** A job that finishes now takes part in no chain that ended before now. */
  lemma ChainsSame(jobs: seq<Job>, clock: nat, j: Job, at: nat, chain: seq<nat>)
    requires InTime(jobs, clock) && j.admitted < j.finished == clock && j.executed >= 0.0 && at <= clock
    ensures IsChain(jobs + [j], chain, at) <==> IsChain(jobs, chain, at)
    ensures IsChain(jobs, chain, at) ==> Weight(jobs + [j], chain) == Weight(jobs, chain)
  {
    var all := jobs + [j];
    if IsChain(all, chain, at) {
      forall k | 0 <= k < |chain| ensures chain[k] < |jobs| {
        ChainClimbs(all, clock + 1, chain, at, k);
      }
    }
    if IsChain(jobs, chain, at) {
      WeightSame(jobs, [j], chain);
    }
  }

  lemma HeaviestSame(jobs: seq<Job>, clock: nat, j: Job, at: nat, value: real)
    requires InTime(jobs, clock) && j.admitted < j.finished == clock && j.executed >= 0.0 && at <= clock
    requires Heaviest(jobs, at, value)
    ensures Heaviest(jobs + [j], at, value)
  {
    hide IsChain;
    var best :| IsChain(jobs, best, at) && Weight(jobs, best) == value;
    ChainsSame(jobs, clock, j, at, best);
    forall chain | IsChain(jobs + [j], chain, at) ensures Weight(jobs + [j], chain) <= value {
      ChainsSame(jobs, clock, j, at, chain);
    }
  }

  lemma HeaviestLater(jobs: seq<Job>, clock: nat, at: nat, value: real)
    requires InTime(jobs, clock) && clock <= at && Heaviest(jobs, clock, value)
    ensures Heaviest(jobs, at, value)
  {
    forall chain ensures IsChain(jobs, chain, at) <==> IsChain(jobs, chain, clock) {
    }
  }

  /** The last link of a chain that uses the newest job: everything before it had finished when that job was
      admitted. */
  lemma NewestIsLast(jobs: seq<Job>, clock: nat, j: Job, chain: seq<nat>)
    requires InTime(jobs, clock) && j.admitted < j.finished == clock && j.executed >= 0.0
    requires IsChain(jobs + [j], chain, clock + 1)
    ensures IsChain(jobs, chain, clock)
      || (chain != [] && chain[|chain| - 1] == |jobs| && IsChain(jobs, chain[..|chain| - 1], j.admitted))
  {
    var all := jobs + [j];
    forall k | 0 <= k < |chain| - 1 ensures chain[k] < |jobs| {
      assert all[chain[k]].finished < all[chain[k + 1]].admitted < all[chain[k + 1]].finished;
    }
  }

  lemma ExtendChain(jobs: seq<Job>, clock: nat, j: Job, chain: seq<nat>)
    requires InTime(jobs, clock) && j.admitted < j.finished == clock && IsChain(jobs, chain, j.admitted)
    ensures IsChain(jobs + [j], chain + [|jobs|], clock + 1)
      && Weight(jobs + [j], chain + [|jobs|]) == Weight(jobs, chain) + j.executed
  {
    var longer := chain + [|jobs|];
    assert longer[..|longer| - 1] == chain;
    WeightSame(jobs, [j], chain);
  }

  /** `max(service, inherited + executed)` is the heaviest chain once the newest job is counted. */
  lemma HeaviestGrows(jobs: seq<Job>, clock: nat, j: Job, service: real, inherited: real)
    requires InTime(jobs, clock) && j.admitted < j.finished == clock && j.executed >= 0.0
    requires Heaviest(jobs, clock, service) && Heaviest(jobs, j.admitted, inherited)
    ensures Heaviest(jobs + [j], clock + 1, MaxReal(service, inherited + j.executed))
  {
    hide IsChain, Weight;
    var all, value := jobs + [j], MaxReal(service, inherited + j.executed);
    forall chain | IsChain(all, chain, clock + 1) ensures Weight(all, chain) <= value {
      NewestIsLast(jobs, clock, j, chain);
      if IsChain(jobs, chain, clock) {
        ChainsSame(jobs, clock, j, clock, chain);
      } else {
        var front := chain[..|chain| - 1];
        ExtendChain(jobs, clock, j, front);
        assert front + [|jobs|] == chain;
      }
    }
    if value == service {
      var best :| IsChain(jobs, best, clock) && Weight(jobs, best) == service;
      ChainsSame(jobs, clock, j, clock, best);
      StillChain(all, best, clock);
    } else {
      var best :| IsChain(jobs, best, j.admitted) && Weight(jobs, best) == inherited;
      ExtendChain(jobs, clock, j, best);
    }
  }

  lemma StillChain(jobs: seq<Job>, chain: seq<nat>, at: nat)
    requires IsChain(jobs, chain, at)
    ensures IsChain(jobs, chain, at + 1)
  {
  }

  // ---- The invariant -------------------------------------------------------------------

  ghost predicate RowOk(kind: PolicyKind, row: Row, jobs: seq<Job>, clock: nat) {
    && InTime(jobs, clock)
    && row.wait == TotalWaited(jobs)
    && (if kind == Atlas then Heaviest(jobs, clock, row.service) else row.service == TotalExecuted(jobs))
  }

  ghost predicate TicketOk(w: World, rid: string, k: Ticket) {
    && rid in w.used && k.admitted < w.clock
    && (Requested(w.table, k.pid, rid) && k.pid in w.done && w.kind == Atlas ==>
       Heaviest(w.done[k.pid], k.admitted, k.inherited))
  }

  ghost predicate WorldOk(w: World) {
    && TableOk(w.table)
    && (forall rid :: rid in w.table.requests ==> rid in w.used)
    && (forall pid :: pid in w.table.programs ==>
       pid in w.done && RowOk(w.kind, w.table.programs[pid], w.done[pid], w.clock))
    && (forall rid :: rid in w.live ==> TicketOk(w, rid, w.live[rid]))
  }

  lemma RowLater(kind: PolicyKind, row: Row, jobs: seq<Job>, clock: nat)
    requires RowOk(kind, row, jobs, clock)
    ensures RowOk(kind, row, jobs, clock + 1)
  {
    hide IsChain;
    if kind == Atlas {
      HeaviestLater(jobs, clock, clock + 1, row.service);
    }
  }

  lemma RowNew(kind: PolicyKind, clock: nat)
    ensures RowOk(kind, Row(0.0, 0.0, 0, false), [], clock)
  {
    assert IsChain([], [], clock) && Weight([], []) == 0.0;
    forall chain | IsChain([], chain, clock) ensures chain == [] {
    }
  }

  /** A table whose program rows keep their service and waiting time, and which gains no request, stays in order. */
  lemma Unserved(w: World, w': World)
    requires WorldOk(w) && w'.kind == w.kind && w'.clock == w.clock + 1 && w'.done == w.done && w'.live == w.live
      && w'.used == w.used
    requires TableOk(w'.table)
    requires forall pid :: pid in w'.table.programs ==>
      pid in w.table.programs && w'.table.programs[pid].service == w.table.programs[pid].service
        && w'.table.programs[pid].wait == w.table.programs[pid].wait
    requires forall rid :: rid in w'.table.requests ==>
      rid in w.table.requests && w'.table.requests[rid] == w.table.requests[rid]
    ensures WorldOk(w')
  {
    hide Heaviest, TableOk;
    forall pid | pid in w'.table.programs ensures RowOk(w'.kind, w'.table.programs[pid], w'.done[pid], w'.clock) {
      RowLater(w.kind, w.table.programs[pid], w.done[pid], w.clock);
    }
    forall rid | rid in w'.live ensures TicketOk(w', rid, w'.live[rid]) {
      assert TicketOk(w, rid, w.live[rid]);
    }
  }

  lemma OpenOk(w: World, pid: string)
    requires WorldOk(w)
    ensures WorldOk(Act(w, OpenSession(pid)))
  {
    hide Heaviest, RowOk;
    OpenKeeps(w.table, pid);
    var w' := Act(w, OpenSession(pid));
    if Opened(w.table, pid).Ok? {
      RowNew(w.kind, w'.clock);
      forall q | q in w'.table.programs ensures RowOk(w'.kind, w'.table.programs[q], w'.done[q], w'.clock) {
        if q != pid { RowLater(w.kind, w.table.programs[q], w.done[q], w.clock); }
      }
      forall rid | rid in w'.live ensures TicketOk(w', rid, w'.live[rid]) {
        assert TicketOk(w, rid, w.live[rid]);
      }
    } else {
      Unserved(w, w');
    }
  }

  lemma AdmitOk(w: World, pid: string, rid: string)
    requires WorldOk(w)
    ensures WorldOk(Act(w, AdmitCall(pid, rid)))
  {
    hide Heaviest, TableOk;
    AdmitKeeps(w.table, pid, rid);
    var w' := Act(w, AdmitCall(pid, rid));
    if rid !in w.used && Admitted(w.table, pid, rid).Ok? {
      forall q | q in w'.table.programs ensures RowOk(w'.kind, w'.table.programs[q], w'.done[q], w'.clock) {
        RowLater(w.kind, w.table.programs[q], w.done[q], w.clock);
      }
      forall r | r in w'.live ensures TicketOk(w', r, w'.live[r]) {
        if r != rid { assert TicketOk(w, r, w.live[r]); }
      }
    } else {
      Unserved(w, w');
    }
  }

  lemma RowServed(kind: PolicyKind, row: Row, jobs: seq<Job>, clock: nat, k: Ticket, executed: real, waited: real,
                  active: int)
    requires RowOk(kind, row, jobs, clock) && k.admitted < clock && executed >= 0.0
    requires kind == Atlas ==> Heaviest(jobs, k.admitted, k.inherited)
    ensures RowOk(kind, Row(Served(kind, row.service, k.inherited, executed), row.wait + waited, active, row.closing),
                  jobs + [Job(k.admitted, clock, executed, waited)], clock + 1)
  {
    hide Heaviest;
    var j := Job(k.admitted, clock, executed, waited);
    assert (jobs + [j])[..|jobs|] == jobs;
    if kind == Atlas {
      HeaviestGrows(jobs, clock, j, row.service, k.inherited);
    }
  }

  lemma FinishOk(w: World, rid: string, executed: real, waited: real)
    requires WorldOk(w) && executed >= 0.0
    ensures WorldOk(Act(w, FinishCall(rid, executed, waited)))
  {
    hide Heaviest, TableOk, RowOk, Served;
    var w' := Act(w, FinishCall(rid, executed, waited));
    if rid !in w.live {
      Unserved(w, w');
    } else {
      var k := w.live[rid];
      FinishKeeps(w.table, k.pid, rid, k.inherited, executed, waited, w.kind);
      RequestHasProgram(w.table, k.pid, rid);
      if Requested(w.table, k.pid, rid) {
        FinishRows(w, rid, executed, waited);
        FinishTickets(w, rid, executed, waited);
      } else {
        Unserved(w, w'.(live := w.live));
        forall r | r in w'.live ensures TicketOk(w', r, w'.live[r]) {
          assert TicketOk(w'.(live := w.live), r, w.live[r]);
        }
      }
    }
  }

  lemma RequestHasProgram(t: Table, pid: string, rid: string)
    requires TableOk(t)
    ensures Requested(t, pid, rid) ==> pid in t.programs
  {
  }

  lemma FinishRows(w: World, rid: string, executed: real, waited: real)
    requires WorldOk(w) && executed >= 0.0 && rid in w.live && Requested(w.table, w.live[rid].pid, rid)
      && w.live[rid].pid in w.table.programs
    ensures var w' := Act(w, FinishCall(rid, executed, waited));
      forall q :: q in w'.table.programs ==> q in w'.done && RowOk(w'.kind, w'.table.programs[q], w'.done[q], w'.clock)
  {
    hide Heaviest, TableOk, RowOk, Served;
    var k, w' := w.live[rid], Act(w, FinishCall(rid, executed, waited));
    assert TicketOk(w, rid, k);
    forall q | q in w'.table.programs
      ensures q in w'.done && RowOk(w'.kind, w'.table.programs[q], w'.done[q], w'.clock) {
      if q == k.pid {
        RowServed(w.kind, w.table.programs[q], w.done[q], w.clock, k, executed, waited, w.table.programs[q].active - 1);
      } else {
        RowLater(w.kind, w.table.programs[q], w.done[q], w.clock);
      }
    }
  }

  lemma FinishTickets(w: World, rid: string, executed: real, waited: real)
    requires WorldOk(w) && executed >= 0.0 && rid in w.live && Requested(w.table, w.live[rid].pid, rid)
      && w.live[rid].pid in w.table.programs
    ensures var w' := Act(w, FinishCall(rid, executed, waited));
      && (forall r :: r in w'.live ==> TicketOk(w', r, w'.live[r]))
      && (forall r :: r in w'.table.requests ==> r in w'.used)
  {
    hide Heaviest, TableOk, Served;
    var k, w' := w.live[rid], Act(w, FinishCall(rid, executed, waited));
    assert TicketOk(w, rid, k);
    assert RowOk(w.kind, w.table.programs[k.pid], w.done[k.pid], w.clock);
    forall r | r in w'.live ensures TicketOk(w', r, w'.live[r]) {
      assert TicketOk(w, r, w.live[r]);
      if w.live[r].pid == k.pid && Requested(w'.table, k.pid, r) && w.kind == Atlas {
        HeaviestSame(w.done[k.pid], w.clock, Job(k.admitted, w.clock, executed, waited), w.live[r].admitted,
          w.live[r].inherited);
      }
    }
  }

  lemma ActOk(w: World, a: Action)
    requires WorldOk(w) && Sane(a)
    ensures WorldOk(Act(w, a))
  {
    hide WorldOk, Act;
    match a
    case OpenSession(pid) => OpenOk(w, pid);
    case AdmitCall(pid, rid) => AdmitOk(w, pid, rid);
    case FinishCall(rid, executed, waited) => FinishOk(w, rid, executed, waited);
    case FailCall(pid, rid) => FailOk(w, pid, rid);
    case EndSession(pid) => EndOk(w, pid);
  }

  lemma FailOk(w: World, pid: string, rid: string)
    requires WorldOk(w)
    ensures WorldOk(Act(w, FailCall(pid, rid)))
  {
    hide Heaviest, RowOk, TicketOk;
    FinishKeeps(w.table, pid, rid, 0.0, 0.0, 0.0, w.kind);
    ErrorFinish(w.table, pid, rid, w.kind);
    Unserved(w, Act(w, FailCall(pid, rid)));
  }

  lemma EndOk(w: World, pid: string)
    requires WorldOk(w)
    ensures WorldOk(Act(w, EndSession(pid)))
  {
    hide Heaviest, RowOk, TicketOk;
    EndKeeps(w.table, pid);
    Unserved(w, Act(w, EndSession(pid)));
  }

  lemma {:induction false} RunOk(kind: PolicyKind, actions: seq<Action>)
    requires forall k :: 0 <= k < |actions| ==> Sane(actions[k])
    ensures WorldOk(Run(kind, actions)) && Run(kind, actions).kind == kind
  {
    if actions != [] {
      hide WorldOk;
      RunOk(kind, actions[..|actions| - 1]);
      ActOk(Run(kind, actions[..|actions| - 1]), actions[|actions| - 1]);
    }
  }

  /** After any interleaving, the ATLAS service of an open program is the weight of the heaviest chain of its finished
      calls; under every other policy it is the sum of what they executed. The waiting time is the sum of their
      waits. */
  lemma ServiceIsHeaviestChain(kind: PolicyKind, actions: seq<Action>, pid: string)
    requires (forall k :: 0 <= k < |actions| ==> Sane(actions[k])) && pid in Run(kind, actions).table.programs
    ensures var w := Run(kind, actions);
      && pid in w.done
      && (kind == Atlas ==> Heaviest(w.done[pid], w.clock, w.table.programs[pid].service))
      && (kind != Atlas ==> w.table.programs[pid].service == TotalExecuted(w.done[pid]))
      && w.table.programs[pid].wait == TotalWaited(w.done[pid])
  {
    hide Heaviest, Run, TableOk;
    RunOk(kind, actions);
    var w := Run(kind, actions);
    assert RowOk(w.kind, w.table.programs[pid], w.done[pid], w.clock);
  }

  /** An admitted call inherits the weight of the heaviest chain that had finished when it was admitted. */
  lemma InheritedIsHeaviestChain(actions: seq<Action>, rid: string)
    requires (forall k :: 0 <= k < |actions| ==> Sane(actions[k])) && rid in Run(Atlas, actions).live
    ensures var w := Run(Atlas, actions);
      var k := w.live[rid];
      Requested(w.table, k.pid, rid) ==> k.pid in w.done && Heaviest(w.done[k.pid], k.admitted, k.inherited)
  {
    hide Heaviest, Run;
    RunOk(Atlas, actions);
    var w := Run(Atlas, actions);
    assert TicketOk(w, rid, w.live[rid]);
  }
}
