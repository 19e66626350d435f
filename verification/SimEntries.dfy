/** The program totals of the process table, over whole runs: waiting time is the sum over finished calls, and service
 *  is what the policy makes of their model times.
 */
module SimEntries {
  import opened Sequences
  import opened Levels
  import opened SimModel
  import opened SimInvariant
  import opened SimTermination
  import opened SimSteps
  import SimAtlas

  /** What a finished call leaves to its program. */
  datatype Bill = Bill(wait: int, model: int, priority: int)

  function BillOf(c: Call): Option<Bill> {
    if c.status == Finished then Some(Bill(c.wait, c.model, c.priority)) else None
  }

  function Bills(calls: seq<Call>): (r: seq<Option<Bill>>)
    ensures |r| == |calls| && forall i :: 0 <= i < |r| ==> r[i] == BillOf(calls[i])
  {
    seq(|calls|, i requires 0 <= i < |calls| => BillOf(calls[i]))
  }

  /** One figure of the finished calls of a program, call by call. */
  function Figures(w: Workload, bills: seq<Option<Bill>>, pid: nat, figure: Bill -> int): (r: seq<int>)
    requires |bills| == |w.specs|
    ensures |r| == |bills|
    ensures forall i :: 0 <= i < |r| ==>
      r[i] == if w.specs[i].pid == pid && bills[i].Some? then figure(bills[i].value) else 0
  {
    seq(|bills|, i requires 0 <= i < |bills| =>
      if w.specs[i].pid == pid && bills[i].Some? then figure(bills[i].value) else 0)
  }

  ghost predicate PaidBy(w: Workload, bills: seq<Option<Bill>>, pid: nat, i: nat)
    requires |bills| == |w.specs|
  {
    i < |bills| && w.specs[i].pid == pid && bills[i].Some?
  }

  /** The totals of one program: all waiting; and no service under MLFQ, the largest priority plus model time under the
      two ATLAS policies, and all model time otherwise. */
  ghost predicate Totals(policy: Policy, w: Workload, bills: seq<Option<Bill>>, pid: nat, e: Entry)
    requires |bills| == |w.specs|
  {
    && e.waiting == Sum(Figures(w, bills, pid, (b: Bill) => b.wait))
    && (policy in {Fcfs, Plas, RoundRobin} ==> e.service == Sum(Figures(w, bills, pid, (b: Bill) => b.model)))
    && (policy == Mlfq ==> e.service == 0)
    && (policy in {Atlas, DagAtlas} ==>
         && (forall i: nat :: PaidBy(w, bills, pid, i) ==> bills[i].value.priority + bills[i].value.model <= e.service)
         && (e.service == 0 ||
             exists i: nat :: PaidBy(w, bills, pid, i) && e.service == bills[i].value.priority + bills[i].value.model))
  }

  ghost predicate AllTotals(policy: Policy, w: Workload, bills: seq<Option<Bill>>, entries: seq<Entry>) {
    |bills| == |w.specs| && forall pid :: 0 <= pid < |entries| ==> Totals(policy, w, bills, pid, entries[pid])
  }

  // ---- One completion -----------------------------------------------------------------------

  lemma OneMoreFigure(w: Workload, bills: seq<Option<Bill>>, pid: nat, i: nat, bill: Bill, figure: Bill -> int)
    requires i < |bills| == |w.specs| && bills[i] == None
    ensures Sum(Figures(w, bills[i := Some(bill)], pid, figure)) ==
      Sum(Figures(w, bills, pid, figure)) + if w.specs[i].pid == pid then figure(bill) else 0
  {
    var gain := if w.specs[i].pid == pid then figure(bill) else 0;
    SumUpdate(Figures(w, bills, pid, figure), i, gain);
    assert Figures(w, bills[i := Some(bill)], pid, figure) == Figures(w, bills, pid, figure)[i := gain];
  }

  lemma CompleteTotals(policy: Policy, w: Workload, bills: seq<Option<Bill>>, pid: nat, e: Entry, i: nat, c: Call)
    requires i < |bills| == |w.specs| && bills[i] == None && Totals(policy, w, bills, pid, e)
    ensures Totals(policy, w, bills[i := Some(Bill(c.wait, c.model, c.priority))], pid,
      if w.specs[i].pid == pid then Entry(ServiceAfter(policy, e, c), e.waiting + c.wait) else e)
  {
    var bill := Bill(c.wait, c.model, c.priority);
    var bills' := bills[i := Some(bill)];
    OneMoreFigure(w, bills, pid, i, bill, (b: Bill) => b.wait);
    OneMoreFigure(w, bills, pid, i, bill, (b: Bill) => b.model);
    hide Figures, Sum;
    assert forall j: nat :: PaidBy(w, bills, pid, j) ==> PaidBy(w, bills', pid, j) && bills'[j] == bills[j];
    assert forall j: nat :: PaidBy(w, bills', pid, j) ==> j == i || PaidBy(w, bills, pid, j);
    assert w.specs[i].pid == pid ==> PaidBy(w, bills', pid, i);
  }

  lemma CompleteAll(policy: Policy, w: Workload, bills: seq<Option<Bill>>, entries: seq<Entry>, i: nat, c: Call)
    requires AllTotals(policy, w, bills, entries) && i < |bills| && bills[i] == None && w.specs[i].pid < |entries|
    ensures var pid := w.specs[i].pid;
      AllTotals(policy, w, bills[i := Some(Bill(c.wait, c.model, c.priority))],
        entries[pid := Entry(ServiceAfter(policy, entries[pid], c), entries[pid].waiting + c.wait)])
  {
    hide Totals, ServiceAfter;
    forall pid | 0 <= pid < |entries|
      ensures Totals(policy, w, bills[i := Some(Bill(c.wait, c.model, c.priority))], pid,
        if w.specs[i].pid == pid then Entry(ServiceAfter(policy, entries[pid], c), entries[pid].waiting + c.wait)
        else entries[pid])
    {
      CompleteTotals(policy, w, bills, pid, entries[pid], i, c);
    }
  }

  // ---- One tick of one engine -------------------------------------------------------------------

  /** The bills while the calls of `ids` have already been settled. */
  function SettledBills(calls: seq<Call>, ticked: seq<Call>, ids: seq<nat>): (r: seq<Option<Bill>>)
    requires |calls| == |ticked|
    ensures |r| == |calls| && forall i :: 0 <= i < |r| ==> r[i] == BillOf(if i in ids then ticked[i] else calls[i])
  {
    seq(|calls|, i requires 0 <= i < |calls| => BillOf(if i in ids then ticked[i] else calls[i]))
  }

  lemma {:induction false} SettleTotals(cfg: Config, w: Workload, entries: seq<Entry>, calls: seq<Call>,
                                        ticked: seq<Call>, ids: seq<nat>)
    requires |calls| == |ticked| == |w.specs| && NoDup(ids) && forall i :: 0 <= i < |w.specs| ==>
      w.specs[i].pid < |entries|
    requires forall i :: i in ids ==> i < |calls| && calls[i].status != Finished
    requires AllTotals(cfg.policy, w, Bills(calls), entries)
    ensures AllTotals(cfg.policy, w, SettledBills(calls, ticked, ids), Settle(cfg, w, entries, ticked, ids))
  {
    hide AllTotals, ServiceAfter, Settle, SettledBills, BillOf;
    if ids == [] {
      NobodySettled(calls, ticked);
      SimAtlas.NothingSettled(cfg, w, entries, ticked);
    } else {
      var n := |ids| - 1;
      PopLast(ids);
      TakeMore(ids, n);
      TakeAll(ids);
      assert ids[n] in ids && forall i :: i in ids[..n] ==> i in ids;
      SettleLast(cfg, w, entries, ticked, ids[..n], ids[n]);
      SettleTotals(cfg, w, entries, calls, ticked, ids[..n]);
      SettleNext(cfg.policy, w, Settle(cfg, w, entries, ticked, ids[..n]), calls, ticked, ids[..n], ids[n]);
    }
  }

  lemma NobodySettled(calls: seq<Call>, ticked: seq<Call>)
    requires |calls| == |ticked|
    ensures SettledBills(calls, ticked, []) == Bills(calls)
  {
  }

  lemma SettleNext(policy: Policy, w: Workload, before: seq<Entry>, calls: seq<Call>, ticked: seq<Call>, ids: seq<nat>,
                   i: nat)
    requires |calls| == |ticked| == |w.specs| && i < |calls| && i !in ids && calls[i].status != Finished
    requires w.specs[i].pid < |before| && AllTotals(policy, w, SettledBills(calls, ticked, ids), before)
    ensures var pid := w.specs[i].pid;
      var after := if ticked[i].status == Finished
        then before[pid := Entry(ServiceAfter(policy, before[pid], ticked[i]), before[pid].waiting + ticked[i].wait)]
        else before;
      AllTotals(policy, w, SettledBills(calls, ticked, ids + [i]), after)
  {
    hide AllTotals, ServiceAfter;
    var bills := SettledBills(calls, ticked, ids);
    if ticked[i].status == Finished {
      CompleteAll(policy, w, bills, before, i, ticked[i]);
      assert SettledBills(calls, ticked, ids + [i]) == bills[i := BillOf(ticked[i])];
    } else {
      assert SettledBills(calls, ticked, ids + [i]) == bills;
    }
  }

  lemma TickBill(c: Call, c': Call, time: int)
    requires Live(c) && TicksTo(c, c', time)
    ensures BillOf(c') == BillOf(TickCall(c, time)) && (c.status != Running ==> BillOf(c') == None)
  {
  }

  lemma TickTotals(cfg: Config, w: Workload, s: Sim, e: nat)
    requires Midway(cfg, w, s, e) && Shape(cfg, w, s) && e < cfg.engines
    requires AllTotals(cfg.policy, w, Bills(s.calls), s.entries)
    ensures var r := TickEngine(cfg, w, s, e); AllTotals(cfg.policy, w, Bills(r.calls), r.entries)
  {
    hide AllTotals, Midway, Shape, TickEngine, Ticked, Settle, Sel, Stamps, TickCall, TicksTo, BillOf;
    ShapeSizes(cfg, w, s);
    SimAtlas.MidwayStamps(cfg, w, s, e);
    var r, run, ticked := TickEngine(cfg, w, s, e), RunningOn(s.calls, e), Ticked(s.calls, e, s.time);
    SelFacts(s.calls, s.counter, e, {Running});
    ShapeSizes(cfg, w, r);
    SimAtlas.TickEntries(cfg, w, s, e);
    forall i | 0 <= i < |s.calls| ensures BillOf(r.calls[i]) == BillOf(if i in run then ticked[i] else s.calls[i]) {
      TickCallKeeps(cfg, w, s, e, i);
      if LiveOn(s.calls[i], e) {
        TickBill(s.calls[i], r.calls[i], s.time);
        LiveBill(s.calls[i]);
      }
    }
    SettleTotals(cfg, w, s.entries, s.calls, ticked, run);
    assert Bills(r.calls) == SettledBills(s.calls, ticked, run);
  }

  lemma LiveBill(c: Call)
    requires Live(c)
    ensures BillOf(c) == None
  {
  }

  lemma {:induction false} TickUpToTotals(cfg: Config, w: Workload, s: Sim, k: nat)
    requires Inv(cfg, w, s) && Shape(cfg, w, s) && k <= cfg.engines
    requires AllTotals(cfg.policy, w, Bills(s.calls), s.entries)
    ensures var r := TickUpTo(cfg, w, s, k); AllTotals(cfg.policy, w, Bills(r.calls), r.entries)
  {
    hide *;
    TickUnroll(cfg, w, s, k);
    if k > 0 {
      TickUpToTotals(cfg, w, s, k - 1);
      TickUpToInv(cfg, w, s, k - 1);
      var mid := TickUpTo(cfg, w, s, k - 1);
      MidwayShape(cfg, w, mid, k - 1);
      TickTotals(cfg, w, mid, k - 1);
    }
  }

  lemma MidwayShape(cfg: Config, w: Workload, s: Sim, k: nat)
    requires Midway(cfg, w, s, k)
    ensures Shape(cfg, w, s)
  {
  }

  // ---- Whole steps and runs ------------------------------------------------------------------------

  lemma SameBills(calls: seq<Call>, calls': seq<Call>)
    requires |calls| == |calls'|
    requires forall i :: 0 <= i < |calls| ==>
      || SchedulingKeeps(calls[i], calls'[i]) || calls'[i] == calls[i]
      || (calls[i].status == Pending && calls'[i].status == Queued)
    ensures Bills(calls') == Bills(calls)
  {
  }

  lemma StepTotals(cfg: Config, w: Workload, s: Sim)
    requires Inv(cfg, w, s) && Shape(cfg, w, s) && s.time <= cfg.maxTime
    requires AllTotals(cfg.policy, w, Bills(s.calls), s.entries)
    ensures var r := Step(cfg, w, s); AllTotals(cfg.policy, w, Bills(r.calls), r.entries)
  {
    hide Inv, Shape, AllTotals, ReleaseUpTo, ScheduleUpTo, TickUpTo, NextTime, Step, SchedulingKeeps, Earliest;
    StepResult(cfg, w, s);
    ReleaseUpToCalls(cfg, w, s, |s.calls|);
    ReleaseUpToInv(cfg, w, s, |s.calls|);
    ShapeSizes(cfg, w, s);
    var a := Released(cfg, w, s);
    InvShape(cfg, w, a);
    ShapeSizes(cfg, w, a);
    SameBills(s.calls, a.calls);
    ScheduleUpToStatus(cfg, w, a, cfg.engines);
    ScheduleUpToInv(cfg, w, a, cfg.engines);
    var b := ScheduleUpTo(cfg, w, a, cfg.engines);
    InvShape(cfg, w, b);
    SameBills(a.calls, b.calls);
    TickUpToTotals(cfg, w, b, cfg.engines);
  }

  lemma InitTotals(cfg: Config, w: Workload)
    requires ValidWorkload(w) && ValidConfig(cfg, w)
    ensures var s := Init(cfg, w); AllTotals(cfg.policy, w, Bills(s.calls), s.entries)
  {
    hide Ranked;
    var s := Init(cfg, w);
    forall pid | 0 <= pid < |s.entries| ensures Totals(cfg.policy, w, Bills(s.calls), pid, s.entries[pid]) {
      SumZero(Figures(w, Bills(s.calls), pid, (b: Bill) => b.wait));
      SumZero(Figures(w, Bills(s.calls), pid, (b: Bill) => b.model));
    }
  }

  /** In every state of every run the totals of every program are those of its finished calls. */
  lemma {:induction false} TotalsInRun(cfg: Config, w: Workload, n: nat)
    requires ValidWorkload(w) && ValidConfig(cfg, w)
    ensures var s := Reach(cfg, w, n);
      |s.entries| == |w.arrivals| && AllTotals(cfg.policy, w, Bills(s.calls), s.entries)
  {
    hide *;
    ReachUnroll(cfg, w, n);
    ShapeSizes(cfg, w, Reach(cfg, w, n));
    if n == 0 {
      InitTotals(cfg, w);
    } else {
      TotalsInRun(cfg, w, n - 1);
      ReachInv(cfg, w, n - 1);
      var s := Reach(cfg, w, n - 1);
      if !(AllFinished(s) || s.time > cfg.maxTime) {
        StepTotals(cfg, w, s);
      }
    }
  }
}
