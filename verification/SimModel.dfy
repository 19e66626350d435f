/** The discrete-time scheduling simulator as a state machine on call records.
 *
 *  Calls are numbered in the fixed order (program arrival, program id, call id) in
 *  which a tick releases them. What the load balancer and the execution model decide
 *  for a call at its release is an arbitrary table `prep`; the swap penalty is an
 *  arbitrary function of the number of victims.
 */
module SimModel {
  import opened Sequences
  import opened Levels

  datatype Policy = Fcfs | Mlfq | Plas | Atlas | DagAtlas | RoundRobin

  datatype Spec = Spec(pid: nat, modelTime: nat, parents: seq<nat>, releaseDelay: nat, submitTime: Option<nat>)

  datatype Workload = Workload(arrivals: seq<nat>, specs: seq<Spec>)

  /** Engine chosen by the load balancer, model time and scheduler ticks set by the execution model. */
  datatype Prep = Prep(engine: nat, model: nat, sched: nat)

  datatype Config = Config(
    engines: nat, batch: nat, interval: nat, over: nat, maxTime: int,
    policy: Policy, bounds: seq<Bound>, quanta: seq<int>, beta: real,
    penalty: nat -> nat, prep: seq<Prep>)

  datatype Status = Pending | Queued | Prefetched | Running | Finished

  datatype Call = Call(
    status: Status, model: int, remaining: int,
    swap: int, swapLeft: int, sched: int, schedLeft: int,
    ready: int, start: Option<int>, finish: Option<int>,
    engine: nat, queue: nat, order: nat, quantum: int,
    priority: int, cps: int,
    wait: int, waitWindow: int, executed: int, runWindow: int)

  /** Program-level totals of the process table. */
  datatype Entry = Entry(service: int, waiting: int)

  datatype Row = Row(time: int, engine: nat, call: nat, queue: nat)

  datatype Sim = Sim(time: int, calls: seq<Call>, windows: seq<nat>, entries: seq<Entry>, counter: nat, gantt: seq<Row>)

  // ---- Inputs ------------------------------------------------------------------

  ghost predicate Ranked(w: Workload, rank: seq<nat>) {
    && |rank| == |w.specs|
    && (forall i, k :: 0 <= i < |w.specs| && 0 <= k < |w.specs[i].parents| ==>
          w.specs[i].parents[k] < |w.specs| && rank[w.specs[i].parents[k]] < rank[i])
  }

  ghost predicate ValidWorkload(w: Workload) {
    && |w.arrivals| > 0 && |w.specs| > 0
    && (forall i :: 0 <= i < |w.specs| ==> w.specs[i].pid < |w.arrivals| && w.specs[i].modelTime > 0)
    && (forall i, k :: 0 <= i < |w.specs| && 0 <= k < |w.specs[i].parents| ==>
          w.specs[i].parents[k] < |w.specs| && w.specs[w.specs[i].parents[k]].pid == w.specs[i].pid)
    && (exists rank :: Ranked(w, rank))
  }

  ghost predicate ValidConfig(cfg: Config, w: Workload) {
    && cfg.engines > 0 && cfg.batch > 0 && cfg.interval > 0 && cfg.beta > 0.0
    && |cfg.quanta| > 0 && |cfg.bounds| == |cfg.quanta| + 1
    && (forall q :: 0 <= q < |cfg.quanta| ==> cfg.quanta[q] > 0)
    && |cfg.prep| == |w.specs|
    && (forall i :: 0 <= i < |cfg.prep| ==> cfg.prep[i].engine < cfg.engines && cfg.prep[i].model > 0)
  }

  // ---- Policies ----------------------------------------------------------------

  predicate Preemptive(policy: Policy) { policy != Fcfs }

  function PriorityOf(policy: Policy, c: Call, entry: Entry): int {
    match policy
    case Mlfq => 0
    case DagAtlas => c.cps
    case _ => entry.service
  }

  predicate AtLeast(bound: Bound, priority: int) { bound.Finite? && bound.value <= priority as real }

  function QueueFrom(bounds: seq<Bound>, priority: int, q: nat): (r: nat)
    requires q + 1 < |bounds|
    ensures r < |bounds| - 1
    decreases |bounds| - q
  {
    if AtLeast(bounds[q], priority) && !AtLeast(bounds[q + 1], priority) then q
    else if q + 2 < |bounds| then QueueFrom(bounds, priority, q + 1)
    else |bounds| - 2
  }

  function AssignQueue(cfg: Config, priority: int): (r: nat)
    requires |cfg.bounds| == |cfg.quanta| + 1 && |cfg.quanta| > 0
    ensures r < |cfg.quanta|
  {
    if cfg.policy == Fcfs || cfg.policy == RoundRobin then 0 else QueueFrom(cfg.bounds, priority, 0)
  }

  predicate ShouldPreempt(cfg: Config, c: Call) { Preemptive(cfg.policy) && c.quantum <= 0 }

  predicate ShouldPromote(cfg: Config, c: Call, queue: nat, entry: Entry) {
    if cfg.policy == Mlfq then
      queue > 0 && c.waitWindow as real / Max(1, c.runWindow) as real >= cfg.beta
    else
      && queue > 0 && Preemptive(cfg.policy)
      && (entry.waiting + c.waitWindow) as real / Max(1, entry.service + c.runWindow) as real >= cfg.beta
  }

  function DemotedQueue(cfg: Config, queue: nat): nat
    requires |cfg.quanta| > 0
  {
    if cfg.policy == RoundRobin then 0 else if queue + 1 < |cfg.quanta| then queue + 1 else |cfg.quanta| - 1
  }

  /** The levels one call moves through in a refresh. */
  function HopsOf(cfg: Config, c: Call, entry: Entry): (hops: seq<nat>)
    requires |cfg.quanta| > 0
    ensures forall k :: 0 <= k < |hops| ==> hops[k] < |cfg.quanta|
  {
    var down := if ShouldPreempt(cfg, c) then [DemotedQueue(cfg, c.queue)] else [];
    var queue := if ShouldPreempt(cfg, c) then DemotedQueue(cfg, c.queue) else c.queue;
    down + if ShouldPromote(cfg, c, queue, entry) then [0] else []
  }

  predicate Promoted(cfg: Config, c: Call, entry: Entry)
    requires |cfg.quanta| > 0
  {
    ShouldPromote(cfg, c, if ShouldPreempt(cfg, c) then DemotedQueue(cfg, c.queue) else c.queue, entry)
  }

  function ServiceAfter(policy: Policy, entry: Entry, c: Call): int {
    match policy
    case Mlfq => entry.service
    case Atlas => Max(entry.service, c.priority + c.model)
    case DagAtlas => Max(entry.service, c.priority + c.model)
    case _ => entry.service + c.model
  }

  // ---- Lists of calls ----------------------------------------------------------

  predicate Live(c: Call) { c.status == Queued || c.status == Prefetched || c.status == Running }

  predicate LiveOn(c: Call, e: nat) { Live(c) && c.engine == e }

  const LIVE: set<Status> := {Queued, Prefetched, Running}
  /** The calls of one engine in the given states, by number. */
  function Picks(calls: seq<Call>, e: nat, kinds: set<Status>): (r: seq<nat>)
    ensures forall i :: i in r <==> 0 <= i < |calls| && calls[i].engine == e && calls[i].status in kinds
    ensures NoDup(r)
  {
    if calls == [] then []
    else
      var n := |calls| - 1;
      var front := Picks(calls[..n], e, kinds);
      assert forall i :: i in front <==> 0 <= i < n && calls[i].engine == e && calls[i].status in kinds;
      var last := if calls[n].engine == e && calls[n].status in kinds then [n] else [];
      assert forall i :: i in front + last <==> i in front || i in last;
      front + last
  }

  /** Level and stamp of every call waiting or running on an engine. */
  function PlacesOf(calls: seq<Call>, e: nat): Places<nat> {
    map i: nat | i < |calls| && LiveOn(calls[i], e) :: Place(calls[i].queue, calls[i].order)
  }

  /** The calls of an engine in the given live states, in the order (level, stamp). */
  function Sel(calls: seq<Call>, e: nat, kinds: set<Status>): (r: seq<nat>)
    requires kinds <= LIVE
    ensures forall i :: i in r <==> 0 <= i < |calls| && calls[i].engine == e && calls[i].status in kinds
  {
    Sort(Picks(calls, e, kinds), PlacesOf(calls, e))
  }

  function Line(calls: seq<Call>, e: nat): seq<nat> { Sel(calls, e, LIVE) }

  function RunningOn(calls: seq<Call>, e: nat): seq<nat> { Sel(calls, e, {Running}) }

  function PrefetchedOn(calls: seq<Call>, e: nat): seq<nat> { Sel(calls, e, {Prefetched}) }

  // ---- Release -----------------------------------------------------------------

  function Fresh(spec: Spec): Call {
    Call(Pending, spec.modelTime, spec.modelTime, 0, 0, 0, 0, 0, None, None, 0, 0, 0, 0, 0, 0, 0, 0, 0, 0)
  }

  function BaseTime(w: Workload, spec: Spec): int
    requires spec.pid < |w.arrivals|
  {
    match spec.submitTime
    case Some(t) => Max(w.arrivals[spec.pid], t)
    case None => w.arrivals[spec.pid]
  }

  predicate ParentsFinished(w: Workload, calls: seq<Call>, i: nat)
    requires i < |w.specs| == |calls|
  {
    forall p :: p in w.specs[i].parents ==> p < |calls| && calls[p].finish.Some?
  }

  function LastFinish(calls: seq<Call>, parents: seq<nat>): (r: int)
    requires parents != []
    requires forall p :: p in parents ==> p < |calls| && calls[p].finish.Some?
    ensures forall p :: p in parents ==> calls[p].finish.value <= r
    ensures exists p :: p in parents && calls[p].finish.value == r
  {
    assert parents[0] in parents;
    var f := calls[parents[0]].finish.value;
    if |parents| == 1 then f
    else
      assert forall p :: p in parents <==> p == parents[0] || p in parents[1..];
      Max(f, LastFinish(calls, parents[1..]))
  }

  /** `_earliest_ready_time`, with the sentinel past the time limit while a parent is unfinished. */
  function Earliest(cfg: Config, w: Workload, calls: seq<Call>, i: nat): int
    requires i < |w.specs| == |calls| && w.specs[i].pid < |w.arrivals|
  {
    var spec := w.specs[i];
    if spec.parents == [] then BaseTime(w, spec) + spec.releaseDelay
    else if !ParentsFinished(w, calls, i) then cfg.maxTime + 1
    else Max(BaseTime(w, spec), LastFinish(calls, spec.parents) + spec.releaseDelay)
  }

  function CriticalPathService(calls: seq<Call>, parents: seq<nat>): (r: int)
    requires forall p :: p in parents ==> p < |calls|
    ensures parents == [] ==> r == 0
    ensures forall p :: p in parents ==> calls[p].cps + calls[p].model <= r
    ensures parents != [] ==> exists p :: p in parents && r == calls[p].cps + calls[p].model
  {
    if parents == [] then 0
    else
      assert forall p :: p in parents <==> p == parents[0] || p in parents[1..];
      assert parents[0] in parents;
      var first := calls[parents[0]].cps + calls[parents[0]].model;
      if |parents| == 1 then first else Max(first, CriticalPathService(calls, parents[1..]))
  }

  ghost predicate Shape(cfg: Config, w: Workload, s: Sim) {
    && ValidWorkload(w) && ValidConfig(cfg, w)
    && |s.calls| == |w.specs| && |s.windows| == cfg.engines && |s.entries| == |w.arrivals|
  }

  /** Placement, cost model, critical path and admission of one released call. */
  function Admitted(cfg: Config, w: Workload, s: Sim, i: nat): Call
    requires Shape(cfg, w, s) && i < |s.calls|
  {
    var spec, prep := w.specs[i], cfg.prep[i];
    var c := s.calls[i].(
      engine := prep.engine, model := prep.model, remaining := prep.model,
      sched := prep.sched, schedLeft := prep.sched,
      cps := CriticalPathService(s.calls, spec.parents));
    var priority := PriorityOf(cfg.policy, c, s.entries[spec.pid]);
    var queue := AssignQueue(cfg, priority);
    c.(status := Queued, ready := s.time, priority := priority, queue := queue,
       quantum := cfg.quanta[queue], order := s.counter + 1)
  }

  function Release(cfg: Config, w: Workload, s: Sim, i: nat): (r: Sim)
    requires Shape(cfg, w, s) && i < |s.calls|
    ensures Shape(cfg, w, r)
  {
    if s.calls[i].status != Pending || Earliest(cfg, w, s.calls, i) > s.time then s
    else s.(calls := s.calls[i := Admitted(cfg, w, s, i)], counter := s.counter + 1)
  }

  /** The release loop over the first `k` calls. */
  function ReleaseUpTo(cfg: Config, w: Workload, s: Sim, k: nat): (r: Sim)
    requires Shape(cfg, w, s) && k <= |s.calls|
    ensures Shape(cfg, w, r)
  {
    if k == 0 then s else Release(cfg, w, ReleaseUpTo(cfg, w, s, k - 1), k - 1)
  }

  // ---- Schedule ----------------------------------------------------------------

  function StartCall(c: Call, time: int): Call {
    c.(status := Running, start := if c.start.None? then Some(time) else c.start)
  }

  /** `fill_from_prefetch`: the oldest prefetched calls that free slots can take. */
  function FillList(calls: seq<Call>, e: nat, batch: nat): (r: seq<nat>)
    ensures forall i :: i in r ==> i in PrefetchedOn(calls, e)
  {
    var pre := PrefetchedOn(calls, e);
    pre[..Min(Max(0, batch - |RunningOn(calls, e)|), |pre|)]
  }

  function Fill(calls: seq<Call>, e: nat, batch: nat, time: int): (r: seq<Call>)
    ensures |r| == |calls|
    ensures var started := FillList(calls, e, batch);
      forall i :: 0 <= i < |r| ==> r[i] == if i in started then StartCall(calls[i], time) else calls[i]
  {
    var started := FillList(calls, e, batch);
    seq(|calls|, i requires 0 <= i < |calls| => if i in started then StartCall(calls[i], time) else calls[i])
  }

  function EngineHops(cfg: Config, w: Workload, calls: seq<Call>, entries: seq<Entry>, e: nat): (hops: Hops<nat>)
    requires |cfg.quanta| > 0 && |calls| == |w.specs|
    requires forall i :: 0 <= i < |w.specs| ==> w.specs[i].pid < |entries|
    ensures forall i: nat :: i in hops <==> i < |calls| && LiveOn(calls[i], e)
    ensures forall i: nat :: i in hops ==> hops[i] == HopsOf(cfg, calls[i], entries[w.specs[i].pid])
  {
    map i: nat | i < |calls| && LiveOn(calls[i], e) :: HopsOf(cfg, calls[i], entries[w.specs[i].pid])
  }

  /** One call after its turn in the refresh loop. */
  function Requeued(cfg: Config, c: Call, entry: Entry, place: Place): Call
    requires |cfg.quanta| > 0
  {
    var hops, promoted := HopsOf(cfg, c, entry), Promoted(cfg, c, entry);
    c.(queue := place.queue, order := place.order,
       quantum := if hops != [] then cfg.quanta[hops[|hops| - 1]] else c.quantum,
       waitWindow := if promoted then 0 else c.waitWindow,
       runWindow := if promoted then 0 else c.runWindow)
  }

  /** New keys of one engine's line, and the counter after handing them out. */
  function RefreshedKeys(cfg: Config, w: Workload, calls: seq<Call>, entries: seq<Entry>, e: nat,
                         counter: nat): (r: (Places<nat>, nat))
    requires |cfg.quanta| > 0 && |calls| == |w.specs|
    requires forall i :: 0 <= i < |w.specs| ==> w.specs[i].pid < |entries|
    ensures forall i: nat :: i in r.0 <==> i < |calls| && LiveOn(calls[i], e)
  {
    RefreshKeys(PlacesOf(calls, e), Line(calls, e), EngineHops(cfg, w, calls, entries, e), counter)
  }

  /** `Scheduler.refresh`: demotions and promotions of one engine, in the order of its line. */
  function Refreshed(cfg: Config, w: Workload, calls: seq<Call>, entries: seq<Entry>, e: nat,
                     counter: nat): (r: seq<Call>)
    requires |cfg.quanta| > 0 && |calls| == |w.specs|
    requires forall i :: 0 <= i < |w.specs| ==> w.specs[i].pid < |entries|
    ensures |r| == |calls|
    ensures var keys := RefreshedKeys(cfg, w, calls, entries, e, counter).0;
      forall i :: 0 <= i < |r| ==>
        r[i] == if LiveOn(calls[i], e) then Requeued(cfg, calls[i], entries[w.specs[i].pid], keys[i]) else calls[i]
  {
    var keys := RefreshedKeys(cfg, w, calls, entries, e, counter).0;
    seq(|calls|, i requires 0 <= i < |calls| =>
      if LiveOn(calls[i], e) then Requeued(cfg, calls[i], entries[w.specs[i].pid], keys[i]) else calls[i])
  }

  predicate Resident(c: Call) { c.status == Running || c.status == Prefetched }

  /** How many of a line run, and how many are resident. */
  function RunCount(cfg: Config, line: seq<nat>): (n: nat)
    ensures n <= |line|
  {
    if cfg.batch <= |line| then cfg.batch else |line|
  }

  function HoldCount(cfg: Config, line: seq<nat>): (n: nat)
    ensures RunCount(cfg, line) <= n <= |line|
  {
    if cfg.batch + cfg.over <= |line| then cfg.batch + cfg.over else |line|
  }

  /** The resident calls that lose their place. */
  function Victims(cfg: Config, calls: seq<Call>, e: nat): seq<nat> {
    Filter(Line(calls, e)[HoldCount(cfg, Line(calls, e))..], (i: nat) => i < |calls| && Resident(calls[i]))
  }

  function SelectedCall(cfg: Config, line: seq<nat>, victims: seq<nat>, c: Call, i: nat, time: int): Call {
    var run, hold := RunCount(cfg, line), HoldCount(cfg, line);
    if i in line[..run] then StartCall(c, time)
    else if i in line[run..hold] then c.(status := Prefetched)
    else if i in victims then
      var cost := cfg.penalty(|victims|);
      c.(status := Queued, swap := c.swap + cost, swapLeft := c.swapLeft + cost)
    else if i in line then c.(status := Queued)
    else c
  }

  /** Hand the batch slots, then the prefetch slots, to the head of the line; everyone else queues,
      and a resident call that lost its place pays the swap penalty. */
  function Selected(cfg: Config, calls: seq<Call>, e: nat, time: int): (r: seq<Call>)
    ensures |r| == |calls|
    ensures var line, victims := Line(calls, e), Victims(cfg, calls, e);
      forall i :: 0 <= i < |r| ==> r[i] == SelectedCall(cfg, line, victims, calls[i], i, time)
  {
    var line, victims := Line(calls, e), Victims(cfg, calls, e);
    seq(|calls|, i requires 0 <= i < |calls| => SelectedCall(cfg, line, victims, calls[i], i, time))
  }

  function ScheduleEngine(cfg: Config, w: Workload, s: Sim, e: nat): (r: Sim)
    requires Shape(cfg, w, s) && e < cfg.engines
    ensures Shape(cfg, w, r)
  {
    var filled := Fill(s.calls, e, cfg.batch, s.time);
    if s.windows[e] > 0 && RunningOn(filled, e) != [] then s.(calls := filled)
    else
      s.(calls := Selected(cfg, Refreshed(cfg, w, filled, s.entries, e, s.counter), e, s.time),
         counter := RefreshedKeys(cfg, w, filled, s.entries, e, s.counter).1,
         windows := s.windows[e := cfg.interval])
  }

  function ScheduleUpTo(cfg: Config, w: Workload, s: Sim, k: nat): (r: Sim)
    requires Shape(cfg, w, s) && k <= cfg.engines
    ensures Shape(cfg, w, r)
  {
    if k == 0 then s else ScheduleEngine(cfg, w, ScheduleUpTo(cfg, w, s, k - 1), k - 1)
  }

  // ---- Execute -----------------------------------------------------------------

  predicate Executes(c: Call) { c.status == Running && c.swapLeft == 0 && c.schedLeft == 0 }

  /** One tick of one live call: it serves a swap tick, a scheduler tick, a model tick, or waits. */
  function TickCall(c: Call, time: int): Call {
    if c.status == Running then
      if c.swapLeft != 0 then c.(swapLeft := c.swapLeft - 1)
      else if c.schedLeft != 0 then c.(schedLeft := c.schedLeft - 1)
      else
        var ran := c.(remaining := c.remaining - 1, executed := c.executed + 1,
                      runWindow := c.runWindow + 1, quantum := c.quantum - 1);
        if ran.remaining <= 0 then ran.(status := Finished, finish := Some(time + 1)) else ran
    else c.(wait := c.wait + 1, waitWindow := c.waitWindow + 1)
  }

  function Ticked(calls: seq<Call>, e: nat, time: int): (r: seq<Call>)
    ensures |r| == |calls|
    ensures forall i :: 0 <= i < |r| ==> r[i] == if LiveOn(calls[i], e) then TickCall(calls[i], time) else calls[i]
  {
    seq(|calls|, i requires 0 <= i < |calls| => if LiveOn(calls[i], e) then TickCall(calls[i], time) else calls[i])
  }

  /** `complete_call` on the program totals, for the calls of `ids` that just finished. */
  function Settle(cfg: Config, w: Workload, entries: seq<Entry>, calls: seq<Call>, ids: seq<nat>): (r: seq<Entry>)
    requires |calls| == |w.specs|
    requires forall i :: i in ids ==> i < |calls|
    requires forall i :: 0 <= i < |w.specs| ==> w.specs[i].pid < |entries|
    ensures |r| == |entries|
  {
    if ids == [] then entries
    else
      var n := |ids| - 1;
      assert ids[n] in ids && forall i :: i in ids[..n] ==> i in ids;
      var before := Settle(cfg, w, entries, calls, ids[..n]);
      var c, pid := calls[ids[n]], w.specs[ids[n]].pid;
      if c.status == Finished
      then before[pid := Entry(ServiceAfter(cfg.policy, before[pid], c), before[pid].waiting + c.wait)]
      else before
  }

  /** The Gantt rows of one engine in one tick. */
  function Rows(calls: seq<Call>, e: nat, time: int, ids: seq<nat>): seq<Row>
    requires forall i :: i in ids ==> i < |calls|
  {
    if ids == [] then []
    else
      var n := |ids| - 1;
      assert ids[n] in ids && forall i :: i in ids[..n] ==> i in ids;
      Rows(calls, e, time, ids[..n]) + if Executes(calls[ids[n]]) then [Row(time, e, ids[n], calls[ids[n]].queue)]
        else []
  }

  predicate AnyExecutes(calls: seq<Call>, e: nat) {
    exists i :: 0 <= i < |calls| && calls[i].engine == e && Executes(calls[i])
  }

  function TickEngine(cfg: Config, w: Workload, s: Sim, e: nat): (r: Sim)
    requires Shape(cfg, w, s) && e < cfg.engines
    ensures Shape(cfg, w, r)
  {
    var run := RunningOn(s.calls, e);
    var ticked := Ticked(s.calls, e, s.time);
    s.(calls := Fill(ticked, e, cfg.batch, s.time + 1),
       entries := Settle(cfg, w, s.entries, ticked, run),
       windows := if AnyExecutes(s.calls, e) then s.windows[e := if s.windows[e] > 0 then s.windows[e] - 1 else 0]
         else s.windows,
       gantt := s.gantt + Rows(s.calls, e, s.time, run))
  }

  function TickUpTo(cfg: Config, w: Workload, s: Sim, k: nat): (r: Sim)
    requires Shape(cfg, w, s) && k <= cfg.engines
    ensures Shape(cfg, w, r)
  {
    if k == 0 then s else TickEngine(cfg, w, TickUpTo(cfg, w, s, k - 1), k - 1)
  }

  // ---- Whole steps and runs ------------------------------------------------------

  predicate AllFinished(s: Sim) { forall i :: 0 <= i < |s.calls| ==> s.calls[i].status == Finished }

  predicate Busy(s: Sim) { exists i :: 0 <= i < |s.calls| && Live(s.calls[i]) }

  predicate PendingAt(s: Sim, i: nat) { i < |s.calls| && s.calls[i].status == Pending }

  /** The least release time of the pending calls among the first `k`, if there is one. */
  function NextRelease(cfg: Config, w: Workload, s: Sim, k: nat): (r: Option<int>)
    requires Shape(cfg, w, s) && k <= |s.calls|
    ensures forall i: nat :: i < k && PendingAt(s, i) ==> r.Some? && r.value <= Earliest(cfg, w, s.calls, i)
    ensures r.Some? ==> exists i: nat :: i < k && PendingAt(s, i) && r.value == Earliest(cfg, w, s.calls, i)
  {
    hide Earliest;
    if k == 0 then None
    else
      var rest := NextRelease(cfg, w, s, k - 1);
      if !PendingAt(s, k - 1) then rest
      else
        var mine := Earliest(cfg, w, s.calls, k - 1);
        if rest.Some? && rest.value <= mine then rest else Some(mine)
  }

  /** `_idle_with_future_work`. */
  predicate IdleWithFutureWork(cfg: Config, w: Workload, s: Sim, time: int)
    requires Shape(cfg, w, s)
  {
    && !Busy(s)
    && exists i :: 0 <= i < |s.calls| && PendingAt(s, i) && Earliest(cfg, w, s.calls, i) > time
  }

  /** After a tick the clock skips to the next release when nothing is live. */
  function NextTime(cfg: Config, w: Workload, s: Sim, time: int): (r: int)
    requires Shape(cfg, w, s)
    ensures time <= r
  {
    if !IdleWithFutureWork(cfg, w, s, time) then time
    else
      match NextRelease(cfg, w, s, |s.calls|)
      case None => time
      case Some(next) => Max(time, next)
  }

  function Step(cfg: Config, w: Workload, s: Sim): (r: Sim)
    requires Shape(cfg, w, s)
    ensures Shape(cfg, w, r)
  {
    var released := ReleaseUpTo(cfg, w, s, |s.calls|);
    var scheduled := ScheduleUpTo(cfg, w, released, cfg.engines);
    var ticked := TickUpTo(cfg, w, scheduled, cfg.engines);
    ticked.(time := NextTime(cfg, w, ticked, s.time + 1))
  }

  function FirstArrival(arrivals: seq<nat>): (r: nat)
    requires arrivals != []
    ensures forall i :: 0 <= i < |arrivals| ==> r <= arrivals[i]
    ensures r in arrivals
  {
    if |arrivals| == 1 then arrivals[0]
    else
      var rest := FirstArrival(arrivals[1..]);
      if arrivals[0] <= rest then arrivals[0] else rest
  }

  function Init(cfg: Config, w: Workload): (s: Sim)
    requires ValidWorkload(w) && ValidConfig(cfg, w)
    ensures Shape(cfg, w, s)
  {
    Sim(FirstArrival(w.arrivals),
        seq(|w.specs|, i requires 0 <= i < |w.specs| => Fresh(w.specs[i])),
        seq(cfg.engines, e => 0), seq(|w.arrivals|, p => Entry(0, 0)), 0, [])
  }

  /** The state after `n` iterations of `run`, which stops when every call has finished or the time limit is passed. */
  function Reach(cfg: Config, w: Workload, n: nat): (s: Sim)
    requires ValidWorkload(w) && ValidConfig(cfg, w)
    ensures Shape(cfg, w, s)
  {
    if n == 0 then Init(cfg, w)
    else
      var s := Reach(cfg, w, n - 1);
      if AllFinished(s) || s.time > cfg.maxTime then s else Step(cfg, w, s)
  }
}
