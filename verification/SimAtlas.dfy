/** Priorities at release: explicit critical path <= online ATLAS <= total service, with equality on sequential
    programs. */
module SimAtlas {
  import opened Sequences
  import opened Levels
  import opened SimModel
  import opened SimInvariant
  import opened SimTermination
  import opened SimSteps
  import opened SimPaths
  import opened SequentialPrograms
  import Dag

  /** What the accounts of a program see of a call. */
  datatype Ticket = Ticket(released: bool, done: bool, model: int, cps: int, priority: int)

  function TicketOf(c: Call): Ticket { Ticket(c.status != Pending, c.status == Finished, c.model, c.cps, c.priority) }

  function Tickets(calls: seq<Call>): (t: seq<Ticket>)
    ensures |t| == |calls| && forall i :: 0 <= i < |t| ==> t[i] == TicketOf(calls[i])
  {
    seq(|calls|, i requires 0 <= i < |calls| => TicketOf(calls[i]))
  }

  function Worth(w: Workload, t: seq<Ticket>, pid: nat, i: nat): int
    requires i < |t| == |w.specs|
  {
    if w.specs[i].pid == pid && t[i].done then t[i].model else 0
  }

  function Worths(w: Workload, t: seq<Ticket>, pid: nat): (r: seq<int>)
    requires |t| == |w.specs|
    ensures |r| == |t| && forall i :: 0 <= i < |r| ==> r[i] == Worth(w, t, pid, i)
  {
    seq(|t|, i requires 0 <= i < |t| => Worth(w, t, pid, i))
  }

  /** Total model time of the completed calls of a program. */
  function Work(w: Workload, t: seq<Ticket>, pid: nat): int
    requires |t| == |w.specs|
  {
    Sum(Worths(w, t, pid))
  }

  predicate TicketOk(policy: Policy, t: Ticket, work: int, service: int) {
    && (t.done ==> t.released)
    && (t.released ==>
         && t.model >= 1 && t.cps >= 0
         && t.cps + (if t.done then t.model else 0) <= work
         && (policy == Atlas ==> t.cps <= t.priority)
         && (policy == Atlas && t.done ==> t.priority + t.model <= service)
         && (policy == Atlas && !t.done ==> t.priority <= work))
  }

  predicate ServiceOk(policy: Policy, work: int, service: int) {
    && 0 <= service && 0 <= work
    && (policy == Atlas ==> service <= work)
    && (policy == Plas ==> service == work)
  }

  ghost predicate Ledger(policy: Policy, w: Workload, t: seq<Ticket>, entries: seq<Entry>) {
    && |t| == |w.specs| && (forall i :: 0 <= i < |w.specs| ==> w.specs[i].pid < |entries|)
    && (forall i :: 0 <= i < |t| ==>
       TicketOk(policy, t[i], Work(w, t, w.specs[i].pid), entries[w.specs[i].pid].service))
    && (forall pid :: 0 <= pid < |entries| ==> ServiceOk(policy, Work(w, t, pid), entries[pid].service))
  }

  // ---- Release -------------------------------------------------------------------

  /** Releasing a call whose parents are done changes nobody's work. */
  lemma WorkUnfinished(w: Workload, t: seq<Ticket>, t': seq<Ticket>, pid: nat)
    requires |t| == |t'| == |w.specs|
    requires forall i :: 0 <= i < |t| ==> t'[i].done == t[i].done && (t[i].done ==> t'[i].model == t[i].model)
    ensures Work(w, t', pid) == Work(w, t, pid)
  {
    assert Worths(w, t', pid) == Worths(w, t, pid);
  }

  predicate CarriesOn(w: Workload, t: seq<Ticket>, i: nat, p: nat, k: Ticket)
    requires i < |w.specs| == |t|
  {
    p < |t| && t[p].done && w.specs[p].pid == w.specs[i].pid && k.cps == t[p].cps + t[p].model
  }

  /** What the release of a call hands out, seen from the accounts. */
  ghost predicate FairTicket(cfg: Config, w: Workload, t: seq<Ticket>, entries: seq<Entry>, i: nat, k: Ticket)
    requires i < |w.specs| == |t| && w.specs[i].pid < |entries|
  {
    && k.released && !k.done && k.model >= 1
    && (w.specs[i].parents == [] ==> k.cps == 0)
    && (w.specs[i].parents != [] ==> exists p :: p in w.specs[i].parents && CarriesOn(w, t, i, p, k))
    && (cfg.policy == Atlas || cfg.policy == Plas ==> k.priority == entries[w.specs[i].pid].service)
    && (cfg.policy == DagAtlas ==> k.priority == k.cps)
  }

  lemma FairTicketOk(cfg: Config, w: Workload, t: seq<Ticket>, entries: seq<Entry>, i: nat, k: Ticket)
    requires Ledger(cfg.policy, w, t, entries) && i < |t| && FairTicket(cfg, w, t, entries, i, k)
    ensures TicketOk(cfg.policy, k, Work(w, t, w.specs[i].pid), entries[w.specs[i].pid].service)
  {
    hide Work;
    var pid := w.specs[i].pid;
    assert ServiceOk(cfg.policy, Work(w, t, pid), entries[pid].service);
    if w.specs[i].parents != [] {
      var p :| p in w.specs[i].parents && CarriesOn(w, t, i, p, k);
      assert TicketOk(cfg.policy, t[p], Work(w, t, pid), entries[pid].service);
    }
  }

  lemma ReleasedFair(cfg: Config, w: Workload, s: Sim, c': Call, i: nat)
    requires Shape(cfg, w, s) && i < |s.calls| && ReleasedAs(cfg, w, s, c', i)
    ensures w.specs[i].pid < |s.entries| && FairTicket(cfg, w, Tickets(s.calls), s.entries, i, TicketOf(c'))
  {
    hide Ranked;
    var parents := w.specs[i].parents;
    assert forall p :: p in parents ==> w.specs[p].pid == w.specs[i].pid;
    if parents != [] {
      var p :| p in parents && c'.cps == s.calls[p].cps + s.calls[p].model;
      assert CarriesOn(w, Tickets(s.calls), i, p, TicketOf(c'));
    }
  }

  /** The release phase of one step keeps the accounts. */
  lemma ReleaseLedger(cfg: Config, w: Workload, s: Sim)
    requires Inv(cfg, w, s) && Shape(cfg, w, s) && s.time <= cfg.maxTime
    requires Ledger(cfg.policy, w, Tickets(s.calls), s.entries)
    ensures var a := Released(cfg, w, s); a.entries == s.entries && Ledger(cfg.policy, w, Tickets(a.calls), a.entries)
  {
    hide Inv, Shape, ReleaseUpTo, ReleasedAs, Earliest, Work, FairTicket, TicketOk, ServiceOk;
    ShapeSizes(cfg, w, s);
    ReleaseUpToCalls(cfg, w, s, |s.calls|);
    ReleaseUpToAs(cfg, w, s, |s.calls|);
    var a := Released(cfg, w, s);
    ShapeSizes(cfg, w, a);
    var t, t' := Tickets(s.calls), Tickets(a.calls);
    forall i | 0 <= i < |t| && t'[i] != t[i]
      ensures !t[i].done && !t'[i].done
      ensures TicketOk(cfg.policy, t'[i], Work(w, t, w.specs[i].pid), s.entries[w.specs[i].pid].service)
    {
      ReleasedFair(cfg, w, s, a.calls[i], i);
      FairTicketOk(cfg, w, t, s.entries, i, t'[i]);
      FairIsNew(cfg, w, t, s.entries, i, t'[i]);
    }
    forall pid: nat ensures Work(w, t', pid) == Work(w, t, pid) {
      WorkUnfinished(w, t, t', pid);
    }
  }

  lemma FairIsNew(cfg: Config, w: Workload, t: seq<Ticket>, entries: seq<Entry>, i: nat, k: Ticket)
    requires i < |w.specs| == |t| && w.specs[i].pid < |entries| && FairTicket(cfg, w, t, entries, i, k)
    ensures !k.done
  {
  }

  // ---- Completion ----------------------------------------------------------------

  lemma WorkCompletes(w: Workload, t: seq<Ticket>, i: nat, pid: nat)
    requires i < |t| == |w.specs| && !t[i].done
    ensures Work(w, t[i := t[i].(done := true)], pid) == Work(w, t, pid) + if w.specs[i].pid == pid then t[i].model
      else 0
  {
    var t' := t[i := t[i].(done := true)];
    var gain := if w.specs[i].pid == pid then t[i].model else 0;
    SumUpdate(Worths(w, t, pid), i, gain);
    assert Worths(w, t', pid) == Worths(w, t, pid)[i := gain];
  }

  /** Completing one running call keeps the accounts: `max(service, priority + model)` stays below the total work. */
  lemma CompleteLedger(policy: Policy, w: Workload, t: seq<Ticket>, entries: seq<Entry>, i: nat, c: Call, waiting: int)
    requires Ledger(policy, w, t, entries) && i < |t| && t[i].released && !t[i].done
    requires c.model == t[i].model && c.priority == t[i].priority
    ensures var pid := w.specs[i].pid;
      Ledger(policy, w, t[i := t[i].(done := true)],
        entries[pid := Entry(ServiceAfter(policy, entries[pid], c), waiting)])
  {
    hide Work;
    var pid, t' := w.specs[i].pid, t[i := t[i].(done := true)];
    var entries' := entries[pid := Entry(ServiceAfter(policy, entries[pid], c), waiting)];
    assert TicketOk(policy, t[i], Work(w, t, pid), entries[pid].service);
    assert ServiceOk(policy, Work(w, t, pid), entries[pid].service);
    forall q | 0 <= q < |entries'| ensures ServiceOk(policy, Work(w, t', q), entries'[q].service) {
      WorkCompletes(w, t, i, q);
      assert ServiceOk(policy, Work(w, t, q), entries[q].service);
    }
    forall j | 0 <= j < |t'|
      ensures TicketOk(policy, t'[j], Work(w, t', w.specs[j].pid), entries'[w.specs[j].pid].service) {
      WorkCompletes(w, t, i, w.specs[j].pid);
      assert TicketOk(policy, t[j], Work(w, t, w.specs[j].pid), entries[w.specs[j].pid].service);
    }
  }

  /** The tickets while the calls of `ids` have already been settled. */
  function Mixed(calls: seq<Call>, ticked: seq<Call>, ids: seq<nat>): (t: seq<Ticket>)
    requires |calls| == |ticked|
    ensures |t| == |calls| && forall i :: 0 <= i < |t| ==> t[i] == TicketOf(if i in ids then ticked[i] else calls[i])
  {
    seq(|calls|, i requires 0 <= i < |calls| => TicketOf(if i in ids then ticked[i] else calls[i]))
  }

  predicate RunsOn(c: Call, c': Call) {
    && c.status == Running && !TicketOf(c).done && TicketOf(c).released
    && TicketOf(c') == TicketOf(c).(done := c'.status == Finished)
  }

  lemma MixedStep(calls: seq<Call>, ticked: seq<Call>, ids: seq<nat>, i: nat)
    requires |calls| == |ticked| && i < |calls| && i !in ids && RunsOn(calls[i], ticked[i])
    ensures var t := Mixed(calls, ticked, ids);
      Mixed(calls, ticked, ids + [i]) == (if ticked[i].status == Finished then t[i := t[i].(done := true)] else t)
      && t[i] == TicketOf(calls[i])
  {
    hide TicketOf;
  }

  lemma {:induction false} SettleLedger(cfg: Config, w: Workload, entries: seq<Entry>, calls: seq<Call>,
                                        ticked: seq<Call>, ids: seq<nat>)
    requires |calls| == |ticked| == |w.specs| && NoDup(ids)
    requires forall i :: i in ids ==> i < |calls| && RunsOn(calls[i], ticked[i])
    requires Ledger(cfg.policy, w, Tickets(calls), entries)
    ensures Ledger(cfg.policy, w, Mixed(calls, ticked, ids), Settle(cfg, w, entries, ticked, ids))
  {
    hide Ledger, ServiceAfter, Settle, RunsOn, TicketOf, Mixed;
    LedgerSizes(cfg.policy, w, Tickets(calls), entries);
    if ids == [] {
      assert Mixed(calls, ticked, ids) == Tickets(calls);
      NothingSettled(cfg, w, entries, ticked);
    } else {
      var n := |ids| - 1;
      PopLast(ids);
      TakeMore(ids, n);
      TakeAll(ids);
      assert ids[n] in ids && forall i :: i in ids[..n] ==> i in ids;
      SettleLast(cfg, w, entries, ticked, ids[..n], ids[n]);
      SettleLedger(cfg, w, entries, calls, ticked, ids[..n]);
      SettleOne(cfg, w, Settle(cfg, w, entries, ticked, ids[..n]), calls, ticked, ids[..n], ids[n]);
    }
  }

  lemma SettleOne(cfg: Config, w: Workload, before: seq<Entry>, calls: seq<Call>, ticked: seq<Call>, ids: seq<nat>,
                  i: nat)
    requires |calls| == |ticked| == |w.specs| && i < |calls| && i !in ids && RunsOn(calls[i], ticked[i])
      && w.specs[i].pid < |before|
    requires Ledger(cfg.policy, w, Mixed(calls, ticked, ids), before)
    ensures var pid := w.specs[i].pid;
      var after := if ticked[i].status == Finished
        then before[pid := Entry(ServiceAfter(cfg.policy, before[pid], ticked[i]),
        before[pid].waiting + ticked[i].wait)] else before;
      Ledger(cfg.policy, w, Mixed(calls, ticked, ids + [i]), after)
  {
    hide Ledger, ServiceAfter, RunsOn, TicketOf;
    MixedStep(calls, ticked, ids, i);
    RunsTicket(calls[i], ticked[i]);
    if ticked[i].status == Finished {
      CompleteLedger(cfg.policy, w, Mixed(calls, ticked, ids), before, i, ticked[i],
        before[w.specs[i].pid].waiting + ticked[i].wait);
    }
  }

  lemma RunsTicket(c: Call, c': Call)
    requires RunsOn(c, c')
    ensures TicketOf(c).released && !TicketOf(c).done && TicketOf(c).model == c'.model
      && TicketOf(c).priority == c'.priority
  {
  }

  lemma NothingSettled(cfg: Config, w: Workload, entries: seq<Entry>, calls: seq<Call>)
    requires |calls| == |w.specs| && forall i :: 0 <= i < |w.specs| ==> w.specs[i].pid < |entries|
    ensures Settle(cfg, w, entries, calls, []) == entries
  {
  }

  lemma LedgerSizes(policy: Policy, w: Workload, t: seq<Ticket>, entries: seq<Entry>)
    requires Ledger(policy, w, t, entries)
    ensures |t| == |w.specs| && (forall i :: 0 <= i < |w.specs| ==> w.specs[i].pid < |entries|)
  {
  }

  lemma TickTicket(c: Call, c': Call, time: int)
    requires Live(c) && TicksTo(c, c', time)
    ensures TicketOf(c') == TicketOf(c) || (c.status == Running && TicketOf(c') == TicketOf(c).(done := true))
    ensures c.status != Running ==> TicketOf(c') == TicketOf(c)
    ensures TicketOf(c') == TicketOf(TickCall(c, time))
  {
  }

  lemma TickLedger(cfg: Config, w: Workload, s: Sim, e: nat)
    requires Midway(cfg, w, s, e) && Shape(cfg, w, s) && e < cfg.engines
    requires Ledger(cfg.policy, w, Tickets(s.calls), s.entries)
    ensures Ledger(cfg.policy, w, Tickets(TickEngine(cfg, w, s, e).calls), TickEngine(cfg, w, s, e).entries)
  {
    hide Ledger, Midway, Shape, TickEngine, Ticked, Settle, Sel, Stamps, TickCall;
    ShapeSizes(cfg, w, s);
    MidwayStamps(cfg, w, s, e);
    var r, run, ticked := TickEngine(cfg, w, s, e), RunningOn(s.calls, e), Ticked(s.calls, e, s.time);
    SelFacts(s.calls, s.counter, e, {Running});
    ShapeSizes(cfg, w, r);
    TickEntries(cfg, w, s, e);
    forall i | 0 <= i < |s.calls| ensures TicketOf(r.calls[i]) == TicketOf(if i in run then ticked[i] else s.calls[i])
      ensures i in run ==> RunsOn(s.calls[i], ticked[i])
    {
      TickCallKeeps(cfg, w, s, e, i);
      if LiveOn(s.calls[i], e) {
        TickTicket(s.calls[i], r.calls[i], s.time);
      }
    }
    SettleLedger(cfg, w, s.entries, s.calls, ticked, run);
    assert Tickets(r.calls) == Mixed(s.calls, ticked, run);
  }

  lemma MidwayStamps(cfg: Config, w: Workload, s: Sim, e: nat)
    requires Midway(cfg, w, s, e)
    ensures Stamps(s.calls, s.counter)
  {
  }

  lemma TickEntries(cfg: Config, w: Workload, s: Sim, e: nat)
    requires Shape(cfg, w, s) && e < cfg.engines
    ensures |s.calls| == |w.specs| && forall i :: 0 <= i < |w.specs| ==> w.specs[i].pid < |s.entries|
    ensures TickEngine(cfg, w, s, e).entries
      == Settle(cfg, w, s.entries, Ticked(s.calls, e, s.time), RunningOn(s.calls, e))
  {
    hide Sel, Ticked, Fill, Settle, Rows, ValidConfig;
  }

  lemma {:induction false} TickUpToLedger(cfg: Config, w: Workload, s: Sim, k: nat)
    requires Inv(cfg, w, s) && Shape(cfg, w, s) && k <= cfg.engines
    requires Ledger(cfg.policy, w, Tickets(s.calls), s.entries)
    ensures Ledger(cfg.policy, w, Tickets(TickUpTo(cfg, w, s, k).calls), TickUpTo(cfg, w, s, k).entries)
  {
    hide *;
    TickUnroll(cfg, w, s, k);
    if k > 0 {
      TickUpToLedger(cfg, w, s, k - 1);
      TickUpToInv(cfg, w, s, k - 1);
      TickLedger(cfg, w, TickUpTo(cfg, w, s, k - 1), k - 1);
    }
  }

  lemma KeptTickets(calls: seq<Call>, calls': seq<Call>)
    requires |calls| == |calls'|
    requires forall i :: 0 <= i < |calls| ==> SchedulingKeeps(calls[i], calls'[i])
    ensures Tickets(calls') == Tickets(calls)
  {
    forall i | 0 <= i < |calls| ensures TicketOf(calls'[i]) == TicketOf(calls[i]) {
      assert SchedulingKeeps(calls[i], calls'[i]);
    }
  }

  lemma StepLedger(cfg: Config, w: Workload, s: Sim)
    requires Inv(cfg, w, s) && Shape(cfg, w, s) && s.time <= cfg.maxTime
    requires Ledger(cfg.policy, w, Tickets(s.calls), s.entries)
    ensures Ledger(cfg.policy, w, Tickets(Step(cfg, w, s).calls), Step(cfg, w, s).entries)
  {
    hide Inv, Shape, Ledger, ReleaseUpTo, ScheduleUpTo, TickUpTo, NextTime, Step, SchedulingKeeps;
    StepResult(cfg, w, s);
    ReleaseLedger(cfg, w, s);
    ReleaseUpToInv(cfg, w, s, |s.calls|);
    var a := Released(cfg, w, s);
    InvShape(cfg, w, a);
    ScheduleUpToStatus(cfg, w, a, cfg.engines);
    ScheduleUpToInv(cfg, w, a, cfg.engines);
    var b := ScheduleUpTo(cfg, w, a, cfg.engines);
    InvShape(cfg, w, b);
    KeptTickets(a.calls, b.calls);
    TickUpToLedger(cfg, w, b, cfg.engines);
  }

  lemma InitLedger(cfg: Config, w: Workload)
    requires ValidWorkload(w) && ValidConfig(cfg, w)
    ensures Ledger(cfg.policy, w, Tickets(Init(cfg, w).calls), Init(cfg, w).entries)
  {
    hide Ranked;
    var s := Init(cfg, w);
    forall pid | 0 <= pid < |s.entries|
      ensures ServiceOk(cfg.policy, Work(w, Tickets(s.calls), pid), s.entries[pid].service) {
      SumZero(Worths(w, Tickets(s.calls), pid));
    }
  }

  lemma {:induction false} ReachLedger(cfg: Config, w: Workload, n: nat)
    requires ValidWorkload(w) && ValidConfig(cfg, w)
    ensures Ledger(cfg.policy, w, Tickets(Reach(cfg, w, n).calls), Reach(cfg, w, n).entries)
  {
    hide *;
    ReachUnroll(cfg, w, n);
    if n == 0 {
      InitLedger(cfg, w);
    } else {
      ReachLedger(cfg, w, n - 1);
      ReachInv(cfg, w, n - 1);
      var s := Reach(cfg, w, n - 1);
      if !(AllFinished(s) || s.time > cfg.maxTime) {
        StepLedger(cfg, w, s);
      }
    }
  }

  /** A call is released in step `n` of the run. */
  ghost predicate ReleasedIn(cfg: Config, w: Workload, n: nat, i: nat)
    requires ValidWorkload(w) && ValidConfig(cfg, w) && i < |w.specs|
  {
    && i < |Reach(cfg, w, n).calls| == |Reach(cfg, w, n + 1).calls|
    && Reach(cfg, w, n).calls[i].status == Pending && Reach(cfg, w, n + 1).calls[i].status != Pending
  }

  lemma AtRelease(cfg: Config, w: Workload, n: nat, i: nat)
    requires ValidWorkload(w) && ValidConfig(cfg, w) && i < |w.specs| && ReleasedIn(cfg, w, n, i)
    ensures i < |Reach(cfg, w, n + 1).calls|
    ensures var s, c := Reach(cfg, w, n), Reach(cfg, w, n + 1).calls[i];
      && Shape(cfg, w, s) && |s.calls| == |w.specs| && w.specs[i].pid < |s.entries|
      && FairTicket(cfg, w, Tickets(s.calls), s.entries, i, TicketOf(c).(done := false))
      && (forall p :: p in w.specs[i].parents ==> p < |s.calls| && s.calls[p].status == Finished)
  {
    hide Inv, Shape, Reach, Step, Earliest, FairTicket, ReleasedAs, Released, Kept, AllFinished;
    ReachUnroll(cfg, w, n + 1);
    var s, r := Reach(cfg, w, n), Reach(cfg, w, n + 1);
    ShapeSizes(cfg, w, s);
    ReachInv(cfg, w, n);
    assert r == Step(cfg, w, s) && s.time <= cfg.maxTime;
    StepCall(cfg, w, s, i);
    PendingStays(s.calls[i], r.calls[i], s.time + 1);
    assert Earliest(cfg, w, s.calls, i) <= s.time;
    var a := Released(cfg, w, s);
    ReleasedIs(cfg, w, s);
    ShapeSizes(cfg, w, a);
    ReleasedFair(cfg, w, s, a.calls[i], i);
    KeptTicket(a.calls[i], r.calls[i], s.time + 1);
    ReleasedIsNew(cfg, w, s, a.calls[i], i);
    ParentsKnown(cfg, w, s, i);
  }

  lemma PendingStays(c: Call, c': Call, end: int)
    ensures Kept(c, c', end) && c.status == Pending ==> c'.status == Pending
  {
  }

  lemma KeptTicket(c: Call, c': Call, end: int)
    requires Kept(c, c', end)
    ensures TicketOf(c').(done := false) == TicketOf(c).(done := false)
  {
  }

  lemma ReleasedIsNew(cfg: Config, w: Workload, s: Sim, c: Call, i: nat)
    requires Shape(cfg, w, s) && i < |s.calls| && ReleasedAs(cfg, w, s, c, i)
    ensures TicketOf(c).(done := false) == TicketOf(c)
    ensures forall p :: p in w.specs[i].parents ==> s.calls[p].status == Finished
  {
  }

  /** At the release of a call its explicit critical path is at most the total work completed in its program. Under
      ATLAS its priority lies between the two, and under PLAS it equals that total. */
  lemma Sandwich(cfg: Config, w: Workload, n: nat, i: nat)
    requires ValidWorkload(w) && ValidConfig(cfg, w) && i < |w.specs| && ReleasedIn(cfg, w, n, i)
    ensures |Reach(cfg, w, n).calls| == |w.specs|
    ensures var c, work := Reach(cfg, w, n + 1).calls[i], Work(w, Tickets(Reach(cfg, w, n).calls), w.specs[i].pid);
      && c.cps <= work
      && (cfg.policy == Atlas ==> c.cps <= c.priority <= work)
      && (cfg.policy == Plas ==> c.priority == work)
  {
    hide Reach, Shape, Work, ReleasedIn;
    ReachLedger(cfg, w, n);
    AtRelease(cfg, w, n, i);
    var s := Reach(cfg, w, n);
    FairTicketOk(cfg, w, Tickets(s.calls), s.entries, i, TicketOf(Reach(cfg, w, n + 1).calls[i]).(done := false));
    assert ServiceOk(cfg.policy, Work(w, Tickets(s.calls), w.specs[i].pid), s.entries[w.specs[i].pid].service);
  }

  // ---- Critical-path service is the heaviest ancestor path ---------------------------

  /** The heaviest path of model times through the ancestors of a call. */
  ghost function AncestorPath(cfg: Config, w: Workload, pid: nat, rank: map<nat, nat>, i: nat): int
    requires |cfg.prep| == |w.specs| && i < |w.specs| && w.specs[i].pid == pid
    requires Dag.Closed(ProgramGraph(w, pid)) && Dag.Ranked(ProgramGraph(w, pid), rank)
  {
    Dag.Heaviest(ProgramGraph(w, pid), rank, ModelCosts(cfg, w, pid), i, |w.specs[i].parents|)
  }

  ghost predicate ServicesKnown(cfg: Config, w: Workload, calls: seq<Call>, pid: nat, rank: map<nat, nat>)
    requires |cfg.prep| == |w.specs| == |calls|
    requires Dag.Closed(ProgramGraph(w, pid)) && Dag.Ranked(ProgramGraph(w, pid), rank)
  {
    forall i :: 0 <= i < |calls| && w.specs[i].pid == pid && calls[i].status != Pending ==>
      calls[i].cps == AncestorPath(cfg, w, pid, rank, i)
  }

  lemma {:induction false} PathThrough(cfg: Config, w: Workload, pid: nat, rank: map<nat, nat>, p: nat)
    requires |cfg.prep| == |w.specs| && p < |w.specs| && w.specs[p].pid == pid
    requires Dag.Closed(ProgramGraph(w, pid)) && Dag.Ranked(ProgramGraph(w, pid), rank)
    ensures Dag.Longest(ProgramGraph(w, pid), rank, ModelCosts(cfg, w, pid), p) == cfg.prep[p].model
      + AncestorPath(cfg, w, pid, rank, p)
  {
  }

  lemma {:induction false} ServiceAttained(calls: seq<Call>, parents: seq<nat>) returns (p: nat)
    requires parents != [] && forall p :: p in parents ==> p < |calls|
    ensures p in parents && CriticalPathService(calls, parents) == calls[p].cps + calls[p].model
  {
    p := parents[0];
    if |parents| > 1 {
      assert forall q :: q in parents <==> q == parents[0] || q in parents[1..];
      var rest := ServiceAttained(calls, parents[1..]);
      p := if CriticalPathService(calls, parents[1..]) <= calls[p].cps + calls[p].model then p else rest;
    }
  }

  /** The maximum over the parents' services is the heaviest path. */
  lemma {:induction false} ServiceIsHeaviest(cfg: Config, w: Workload, calls: seq<Call>, pid: nat, rank: map<nat, nat>,
                                             i: nat)
    requires |cfg.prep| == |w.specs| == |calls| && i < |calls| && w.specs[i].pid == pid
    requires Dag.Closed(ProgramGraph(w, pid)) && Dag.Ranked(ProgramGraph(w, pid), rank)
    requires ServicesKnown(cfg, w, calls, pid, rank) && Costed(cfg, calls)
    requires forall p :: p in w.specs[i].parents ==> p < |calls| && w.specs[p].pid == pid && calls[p].status == Finished
    ensures CriticalPathService(calls, w.specs[i].parents) == AncestorPath(cfg, w, pid, rank, i)
  {
    hide CriticalPathService;
    var g, costs, parents := ProgramGraph(w, pid), ModelCosts(cfg, w, pid), w.specs[i].parents;
    forall p | p in parents ensures calls[p].cps + calls[p].model == Dag.Longest(g, rank, costs, p) {
      assert calls[p].cps == AncestorPath(cfg, w, pid, rank, p);
      PathThrough(cfg, w, pid, rank, p);
    }
    if parents == [] {
      NoAncestors(cfg, w, pid, rank, i);
    } else {
      var p := ServiceAttained(calls, parents);
      var k :| 0 <= k < |parents| && parents[k] == p;
      Dag.HeaviestCovers(g, rank, costs, i, |parents|, k);
      var j := Dag.HeaviestAttained(g, rank, costs, i, |parents|);
      assert parents[j] in parents;
    }
  }

  lemma NoAncestors(cfg: Config, w: Workload, pid: nat, rank: map<nat, nat>, i: nat)
    requires |cfg.prep| == |w.specs| && i < |w.specs| && w.specs[i].pid == pid && w.specs[i].parents == []
    requires Dag.Closed(ProgramGraph(w, pid)) && Dag.Ranked(ProgramGraph(w, pid), rank)
    ensures AncestorPath(cfg, w, pid, rank, i) == 0
  {
  }

  lemma StepServices(cfg: Config, w: Workload, s: Sim, pid: nat, rank: map<nat, nat>)
    requires Inv(cfg, w, s) && Shape(cfg, w, s) && s.time <= cfg.maxTime && |cfg.prep| == |w.specs| == |s.calls|
    requires Dag.Closed(ProgramGraph(w, pid)) && Dag.Ranked(ProgramGraph(w, pid), rank)
    requires ServicesKnown(cfg, w, s.calls, pid, rank) && Costed(cfg, s.calls)
    ensures |Step(cfg, w, s).calls| == |w.specs| && ServicesKnown(cfg, w, Step(cfg, w, s).calls, pid, rank)
  {
    hide Inv, Shape, Step, Released, Earliest, CriticalPathService, AncestorPath, Costed;
    var r := Step(cfg, w, s);
    ShapeSizes(cfg, w, r);
    forall i | 0 <= i < |r.calls| && w.specs[i].pid == pid && r.calls[i].status != Pending
      ensures r.calls[i].cps == AncestorPath(cfg, w, pid, rank, i)
    {
      StepCall(cfg, w, s, i);
      if s.calls[i].status == Pending {
        ParentsKnown(cfg, w, s, i);
        ServiceIsHeaviest(cfg, w, s.calls, pid, rank, i);
      }
    }
  }

  /** In every state of every run, under every policy, the critical-path service of a released call is the weight of
      the heaviest path of model times through its ancestors. */
  lemma {:induction false} ServiceIsCriticalPath(cfg: Config, w: Workload, n: nat, pid: nat, rank: map<nat, nat>)
    requires ValidWorkload(w) && ValidConfig(cfg, w)
    requires Dag.Closed(ProgramGraph(w, pid)) && Dag.Ranked(ProgramGraph(w, pid), rank)
    ensures |cfg.prep| == |w.specs| == |Reach(cfg, w, n).calls|
      && ServicesKnown(cfg, w, Reach(cfg, w, n).calls, pid, rank)
  {
    hide *;
    ReachUnroll(cfg, w, n);
    ShapeSizes(cfg, w, Reach(cfg, w, n));
    if n == 0 {
      InitPending(cfg, w);
      NobodyServed(cfg, w, Init(cfg, w).calls, pid, rank);
    } else {
      ServiceIsCriticalPath(cfg, w, n - 1, pid, rank);
      ReachInv(cfg, w, n - 1);
      ReachCosted(cfg, w, n - 1);
      var s := Reach(cfg, w, n - 1);
      if !(AllFinished(s) || s.time > cfg.maxTime) {
        StepServices(cfg, w, s, pid, rank);
      }
    }
  }

  lemma NobodyServed(cfg: Config, w: Workload, calls: seq<Call>, pid: nat, rank: map<nat, nat>)
    requires |cfg.prep| == |w.specs| == |calls|
    requires Dag.Closed(ProgramGraph(w, pid)) && Dag.Ranked(ProgramGraph(w, pid), rank)
    requires forall i :: 0 <= i < |calls| ==> calls[i].status == Pending
    ensures ServicesKnown(cfg, w, calls, pid, rank)
  {
  }

  // ---- Sequential programs ---------------------------------------------------------------

  /** The model time of the first `j` calls of a chain. */
  function Ahead(cfg: Config, line: seq<nat>, j: nat): int
    requires j <= |line| && forall k :: 0 <= k < |line| ==> line[k] < |cfg.prep|
  {
    if j == 0 then 0 else Ahead(cfg, line, j - 1) + cfg.prep[line[j - 1]].model
  }

  lemma {:induction false} AncestorsOfLine(cfg: Config, w: Workload, pid: nat, rank: map<nat, nat>, line: seq<nat>,
                                           j: nat)
    requires |cfg.prep| == |w.specs| && IsLine(w, pid, line) && j < |line|
    requires Dag.Closed(ProgramGraph(w, pid)) && Dag.Ranked(ProgramGraph(w, pid), rank)
    ensures line[j] < |w.specs| && w.specs[line[j]].pid == pid
    ensures AncestorPath(cfg, w, pid, rank, line[j]) == Ahead(cfg, line, j)
  {
    var g, costs := ProgramGraph(w, pid), ModelCosts(cfg, w, pid);
    assert line[j] in line;
    if j > 0 {
      AncestorsOfLine(cfg, w, pid, rank, line, j - 1);
      assert g[line[j]] == [line[j - 1]];
      assert Dag.Heaviest(g, rank, costs, line[j], 1) == Dag.Longest(g, rank, costs, line[j - 1]);
    } else {
      NoAncestors(cfg, w, pid, rank, line[0]);
    }
  }

  lemma {:induction false} DoneBelow(w: Workload, calls: seq<Call>, pid: nat, line: seq<nat>, k: nat, j: nat)
    requires |calls| == |w.specs| && (forall i :: 0 <= i < |w.specs| ==> w.specs[i].pid < |w.arrivals|)
    requires AllAfterParents(w, calls) && IsLine(w, pid, line) && k < j < |line|
    requires calls[line[j]].status != Pending || calls[line[j - 1]].status == Finished
    ensures calls[line[k]].status == Finished
  {
    assert ReleasedAfterParents(w, calls, line[j]);
    assert w.specs[line[j]].parents == [line[j - 1]] && line[j - 1] in w.specs[line[j]].parents;
    if k < j - 1 {
      DoneBelow(w, calls, pid, line, k, j - 1);
    }
  }

  /** When a call of a chain is due, the completed calls of its program are exactly those before it. */
  lemma DoneAreAhead(w: Workload, calls: seq<Call>, pid: nat, line: seq<nat>, j: nat)
    requires |calls| == |w.specs| && (forall i :: 0 <= i < |w.specs| ==> w.specs[i].pid < |w.arrivals|)
    requires AllAfterParents(w, calls) && IsLine(w, pid, line) && j < |line|
    requires calls[line[j]].status == Pending
    requires forall p :: p in w.specs[line[j]].parents ==> p < |calls| && calls[p].status == Finished
    ensures forall k :: 0 <= k < |line| ==> (calls[line[k]].status == Finished <==> k < j)
  {
    hide AllAfterParents;
    forall k | 0 <= k < |line| ensures calls[line[k]].status == Finished <==> k < j {
      if k < j {
        assert line[j - 1] in w.specs[line[j]].parents;
        DoneBelow(w, calls, pid, line, k, j);
      } else if k > j && calls[line[k]].status == Finished {
        DoneBelow(w, calls, pid, line, j, k);
      }
    }
  }

  ghost function Shares(cfg: Config, line: seq<nat>, j: nat): (r: seq<int>)
    requires j <= |line|
    ensures |r| == |cfg.prep| && forall i :: 0 <= i < |r| ==> r[i] == if i in line[..j] then cfg.prep[i].model else 0
  {
    seq(|cfg.prep|, i requires 0 <= i < |cfg.prep| => if i in line[..j] then cfg.prep[i].model else 0)
  }

  lemma {:induction false} SharesSum(cfg: Config, line: seq<nat>, j: nat)
    requires NoDup(line) && j <= |line| && forall k :: 0 <= k < |line| ==> line[k] < |cfg.prep|
    ensures Sum(Shares(cfg, line, j)) == Ahead(cfg, line, j)
  {
    hide Sum, Shares;
    if j == 0 {
      SumZero(Shares(cfg, line, 0));
    } else {
      SharesSum(cfg, line, j - 1);
      SharesNext(cfg, line, j - 1);
      SumUpdate(Shares(cfg, line, j - 1), line[j - 1], cfg.prep[line[j - 1]].model);
    }
  }

  lemma SharesNext(cfg: Config, line: seq<nat>, j: nat)
    requires NoDup(line) && j < |line| && line[j] < |cfg.prep|
    ensures Shares(cfg, line, j)[line[j]] == 0
    ensures Shares(cfg, line, j + 1) == Shares(cfg, line, j)[line[j] := cfg.prep[line[j]].model]
  {
    TakeMore(line, j);
    assert line[j] !in line[..j];
    assert forall i :: i in line[..j + 1] <==> i in line[..j] || i == line[j];
  }

  lemma PlaceInLine(line: seq<nat>, j: nat, i: nat)
    requires NoDup(line) && j <= |line|
    ensures i in line[..j] ==> i in line
    ensures forall k :: 0 <= k < |line| && line[k] == i ==> (i in line[..j] <==> k < j)
  {
    forall k | 0 <= k < |line| && line[k] == i ensures i in line[..j] <==> k < j {
      if k < j {
        TakenAt(line, j, k);
      }
    }
  }

  lemma WorkIsAhead(cfg: Config, w: Workload, calls: seq<Call>, pid: nat, line: seq<nat>, j: nat)
    requires |calls| == |w.specs| == |cfg.prep| && Costed(cfg, calls) && IsLine(w, pid, line) && j <= |line|
    requires forall k :: 0 <= k < |line| ==> (calls[line[k]].status == Finished <==> k < j)
    ensures Work(w, Tickets(calls), pid) == Ahead(cfg, line, j)
  {
    SharesSum(cfg, line, j);
    forall i | 0 <= i < |calls| ensures Worth(w, Tickets(calls), pid, i) == Shares(cfg, line, j)[i] {
      assert i in line <==> w.specs[i].pid == pid;
      PlaceInLine(line, j, i);
    }
    assert Worths(w, Tickets(calls), pid) == Shares(cfg, line, j);
  }

  predicate ProgramAware(policy: Policy) { policy == Plas || policy == Atlas || policy == DagAtlas }

  /** The release of a call of a sequential program: all three priorities coincide. */
  lemma LineRelease(cfg: Config, w: Workload, n: nat, pid: nat, line: seq<nat>, j: nat)
    requires ValidWorkload(w) && ValidConfig(cfg, w) && ProgramAware(cfg.policy)
    requires |cfg.prep| == |w.specs| && IsLine(w, pid, line) && j < |line| && line[j] < |w.specs|
      && ReleasedIn(cfg, w, n, line[j])
    ensures Reach(cfg, w, n + 1).calls[line[j]].cps == Reach(cfg, w, n + 1).calls[line[j]].priority
      == Ahead(cfg, line, j)
  {
    hide Reach, Shape, Inv, Work, ValidWorkload, ValidConfig, AllAfterParents, Costed, IsLine, AncestorPath, Ahead,
      Dag.Closed, Dag.Ranked, ServicesKnown;
    var i := line[j];
    var rank := ProgramOrder(w, pid);
    ReachInv(cfg, w, n);
    ReachCosted(cfg, w, n);
    AtRelease(cfg, w, n, i);
    var s, c := Reach(cfg, w, n), Reach(cfg, w, n + 1).calls[i];
    ServiceIsCriticalPath(cfg, w, n + 1, pid, rank);
    AncestorsOfLine(cfg, w, pid, rank, line, j);
    KnownAt(cfg, w, Reach(cfg, w, n + 1).calls, pid, rank, i);
    InvParents(cfg, w, s);
    DoneAreAhead(w, s.calls, pid, line, j);
    WorkIsAhead(cfg, w, s.calls, pid, line, j);
    Sandwich(cfg, w, n, i);
  }

  lemma KnownAt(cfg: Config, w: Workload, calls: seq<Call>, pid: nat, rank: map<nat, nat>, i: nat)
    requires |cfg.prep| == |w.specs| == |calls|
    requires Dag.Closed(ProgramGraph(w, pid)) && Dag.Ranked(ProgramGraph(w, pid), rank)
    requires ServicesKnown(cfg, w, calls, pid, rank) && i < |calls| && w.specs[i].pid == pid
      && calls[i].status != Pending
    ensures calls[i].cps == AncestorPath(cfg, w, pid, rank, i)
  {
    hide AncestorPath;
  }

  lemma InvParents(cfg: Config, w: Workload, s: Sim)
    requires Inv(cfg, w, s)
    ensures |s.calls| == |w.specs| && AllAfterParents(w, s.calls) && forall i :: 0 <= i < |w.specs| ==>
      w.specs[i].pid < |w.arrivals|
  {
    hide AllAfterParents, Ranked;
  }

  /** On a sequential program PLAS, ATLAS and the explicit-DAG variant give every released call the same priority in
      every state of every run: the model time of the calls before it. So any two of them agree, whatever engines they
      run on. */
  lemma {:induction false} SequentialPriorities(cfg: Config, w: Workload, n: nat, pid: nat, line: seq<nat>, j: nat)
    requires ValidWorkload(w) && ValidConfig(cfg, w) && ProgramAware(cfg.policy)
    requires |cfg.prep| == |w.specs| && IsLine(w, pid, line) && j < |line| && line[j] < |w.specs|
    ensures |Reach(cfg, w, n).calls| == |w.specs|
    ensures var c := Reach(cfg, w, n).calls[line[j]];
      c.status != Pending ==> c.cps == c.priority == Ahead(cfg, line, j)
  {
    hide *;
    ReachUnroll(cfg, w, n);
    ShapeSizes(cfg, w, Reach(cfg, w, n));
    if n == 0 {
      InitPending(cfg, w);
    } else {
      var s, r := Reach(cfg, w, n - 1), Reach(cfg, w, n);
      SequentialPriorities(cfg, w, n - 1, pid, line, j);
      ReachInv(cfg, w, n - 1);
      if !(AllFinished(s) || s.time > cfg.maxTime) {
        if s.calls[line[j]].status == Pending {
          if r.calls[line[j]].status != Pending {
            NowReleased(cfg, w, n - 1, line[j]);
            LineRelease(cfg, w, n - 1, pid, line, j);
          }
        } else {
          StepCall(cfg, w, s, line[j]);
          KeptPriority(s.calls[line[j]], r.calls[line[j]], s.time + 1);
        }
      }
    }
  }

  lemma NowReleased(cfg: Config, w: Workload, n: nat, i: nat)
    requires ValidWorkload(w) && ValidConfig(cfg, w) && i < |w.specs|
    requires i < |Reach(cfg, w, n).calls| == |Reach(cfg, w, n + 1).calls|
    requires Reach(cfg, w, n).calls[i].status == Pending && Reach(cfg, w, n + 1).calls[i].status != Pending
    ensures ReleasedIn(cfg, w, n, i)
  {
    hide Reach;
  }

  lemma KeptPriority(c: Call, c': Call, end: int)
    requires Kept(c, c', end)
    ensures c'.priority == c.priority && c'.cps == c.cps && (c.status == Pending <==> c'.status == Pending)
  {
  }

  lemma {:induction false} SameAhead(a: Config, b: Config, line: seq<nat>, j: nat)
    requires |a.prep| == |b.prep| && j <= |line| && forall k :: 0 <= k < |line| ==> line[k] < |a.prep|
    requires forall i :: 0 <= i < |a.prep| ==> a.prep[i].model == b.prep[i].model
    ensures Ahead(a, line, j) == Ahead(b, line, j)
  {
    if j > 0 {
      SameAhead(a, b, line, j - 1);
    }
  }

  /** Two runs of one workload with equal model times, under any two of the three policies and on any engines, agree on
      the priority of every call of a sequential program. */
  lemma SequentialAgree(a: Config, b: Config, w: Workload, n: nat, m: nat, pid: nat, i: nat)
    requires ValidWorkload(w) && ValidConfig(a, w) && ValidConfig(b, w) && ProgramAware(a.policy)
      && ProgramAware(b.policy)
    requires forall k :: 0 <= k < |w.specs| ==> a.prep[k].model == b.prep[k].model
    requires Straight(w, pid) && i < |w.specs| && w.specs[i].pid == pid
    ensures |Reach(a, w, n).calls| == |Reach(b, w, m).calls| == |w.specs|
    ensures Reach(a, w, n).calls[i].status != Pending && Reach(b, w, m).calls[i].status != Pending ==>
      Reach(a, w, n).calls[i].priority == Reach(b, w, m).calls[i].priority
  {
    hide Reach, Ahead, ValidWorkload;
    var line :| IsLine(w, pid, line);
    assert i in line;
    var j :| 0 <= j < |line| && line[j] == i;
    SequentialPriorities(a, w, n, pid, line, j);
    SequentialPriorities(b, w, m, pid, line, j);
    SameAhead(a, b, line, j);
  }
}
