/** The online scheduler of a serving process: queues kept only as (level, stamp) keys, and wall-clock accounts per
    call. */
module RuntimeSchedulers {
  import opened Sequences
  import opened Levels
  import opened ProgramTables

  datatype PolicyConfig = PolicyConfig(kind: PolicyKind, boundaries: seq<Bound>, quanta: seq<real>, beta: real)

  predicate Below(service: real, bound: Bound) { bound.Infinite? || service < bound.value }

  ghost predicate ValidPolicy(c: PolicyConfig) {
    && |c.boundaries| == |c.quanta| + 1 && c.boundaries[0] == Finite(0.0) && c.boundaries[|c.quanta|] == Infinite
    && (forall i :: 0 <= i < |c.quanta| ==>
       c.boundaries[i].Finite? && Below(c.boundaries[i].value, c.boundaries[i + 1]))
    && (forall i :: 0 <= i < |c.quanta| ==> c.quanta[i] > 0.0)
    && c.beta > 0.0 && |c.quanta| > 0
  }

  /** `PolicyConfig.queue`: the first level whose upper boundary lies above the service. */
  method QueueOf(c: PolicyConfig, service: real) returns (q: nat)
    requires ValidPolicy(c)
    ensures q == LevelOf(c, service, 0) < |c.quanta|
  {
    q := 0;
    while !Below(service, c.boundaries[q + 1])
      invariant q < |c.quanta| && LevelOf(c, service, q) == LevelOf(c, service, 0)
      decreases |c.quanta| - q
    {
      q := q + 1;
    }
  }

  function LevelOf(c: PolicyConfig, service: real, q: nat): (r: nat)
    requires ValidPolicy(c) && q < |c.quanta|
    ensures r < |c.quanta|
    decreases |c.quanta| - q
  {
    if Below(service, c.boundaries[q + 1]) || q + 1 == |c.quanta| then q else LevelOf(c, service, q + 1)
  }

  predicate Brackets(c: PolicyConfig, service: real, q: nat) {
    && q + 1 < |c.boundaries| && c.boundaries[q].Finite?
    && c.boundaries[q].value <= service && Below(service, c.boundaries[q + 1])
  }

  lemma {:induction false} BoundariesClimb(c: PolicyConfig, i: nat, j: nat)
    requires ValidPolicy(c) && i <= j < |c.quanta|
    ensures c.boundaries[i].value <= c.boundaries[j].value
    ensures i < j ==> c.boundaries[i + 1].Finite? && c.boundaries[i + 1].value <= c.boundaries[j].value
    decreases j - i
  {
    if i < j {
      BoundariesClimb(c, i + 1, j);
    }
  }

  lemma {:induction false} LevelBrackets(c: PolicyConfig, service: real, q: nat)
    requires ValidPolicy(c) && q < |c.quanta| && c.boundaries[q].value <= service
    ensures Brackets(c, service, LevelOf(c, service, q))
    decreases |c.quanta| - q
  {
    if !Below(service, c.boundaries[q + 1]) {
      LevelBrackets(c, service, q + 1);
    }
  }

  /** Every nonnegative service falls into exactly one level, the one that `queue` returns. */
  lemma LevelIsUnique(c: PolicyConfig, service: real, q: nat)
    requires ValidPolicy(c) && service >= 0.0
    ensures Brackets(c, service, q) <==> q == LevelOf(c, service, 0)
  {
    var r := LevelOf(c, service, 0);
    LevelBrackets(c, service, 0);
    if Brackets(c, service, q) && q != r {
      if q < r { BoundariesClimb(c, q, r); } else { BoundariesClimb(c, r, q); }
    }
  }

  // ---- Calls -----------------------------------------------------------------------

  datatype RuntimeCall = RuntimeCall(
    pid: string, inherited: real, queue: nat, order: nat, quantum: real, lastUpdate: real,
    executed: real, waited: real, runWindow: real, waitWindow: real, scheduled: bool)

  type Calls = map<string, RuntimeCall>

  function Keys(calls: Calls): (p: Places<string>)
    ensures p.Keys == calls.Keys && forall i :: i in p ==> p[i] == Place(calls[i].queue, calls[i].order)
  {
    map i | i in calls :: Place(calls[i].queue, calls[i].order)
  }

  /** `_wait_until`. */
  function WaitUntil(c: RuntimeCall, now: real): RuntimeCall {
    var delta := MaxReal(0.0, now - c.lastUpdate);
    if c.scheduled then c.(lastUpdate := now)
    else c.(waited := c.waited + delta, waitWindow := c.waitWindow + delta, lastUpdate := now)
  }

  function Ran(c: RuntimeCall, seconds: real, now: real): RuntimeCall {
    c.(executed := c.executed + seconds, runWindow := c.runWindow + seconds, quantum := c.quantum - seconds,
      scheduled := false, lastUpdate := now)
  }

  /** The account of a call admitted at `since` that was on a batch for `batch` seconds. */
  ghost predicate Balanced(c: RuntimeCall, since: real, batch: real) {
    c.waited + batch == c.lastUpdate - since
  }

  predicate Windowed(c: RuntimeCall) {
    0.0 <= c.runWindow <= c.executed && 0.0 <= c.waitWindow <= c.waited
  }

  /** What a step at `now` adds to the time a call has been on a batch. */
  function Aboard(c: RuntimeCall, now: real): real { if c.scheduled then now - c.lastUpdate else 0.0 }

  lemma WaitBalances(c: RuntimeCall, now: real, since: real, batch: real)
    requires c.lastUpdate <= now && Balanced(c, since, batch) && Windowed(c)
    ensures Balanced(WaitUntil(c, now), since, batch + Aboard(c, now)) && Windowed(WaitUntil(c, now))
  {
  }

  /** Reporting an execution keeps the account exactly if the call was on the batch, or no time has passed. */
  lemma RanBalances(c: RuntimeCall, seconds: real, now: real, since: real, batch: real)
    requires c.lastUpdate <= now && Balanced(c, since, batch) && Windowed(c) && seconds >= 0.0
    ensures Balanced(Ran(c, seconds, now), since, batch + Aboard(c, now)) <==> c.scheduled || now == c.lastUpdate
    ensures Windowed(Ran(c, seconds, now))
  {
  }

  // ---- Refresh -----------------------------------------------------------------------

  predicate Demotes(cfg: PolicyConfig, c: RuntimeCall) { cfg.kind != Fcfs && c.quantum <= 0.0 }

  function Lowered(cfg: PolicyConfig, queue: nat): (q: nat)
    requires |cfg.quanta| > 0
    ensures q < |cfg.quanta|
  {
    if queue + 1 < |cfg.quanta| then queue + 1 else |cfg.quanta| - 1
  }

  /** Service and waiting time of the call's program in the snapshot; multi-level feedback looks at the call alone. */
  function Totals(cfg: PolicyConfig, totals: map<string, (real, real)>, pid: string): (real, real) {
    if cfg.kind == Mlfq || pid !in totals then (0.0, 0.0) else totals[pid]
  }

  predicate Promotes(cfg: PolicyConfig, totals: map<string, (real, real)>, c: RuntimeCall, queue: nat) {
    var (service, wait) := Totals(cfg, totals, c.pid);
    && cfg.kind != Fcfs && queue > 0
    && (wait + c.waitWindow) / MaxReal(0.000000001, service + c.runWindow) >= cfg.beta
  }

  function QueueNow(cfg: PolicyConfig, c: RuntimeCall): nat
    requires |cfg.quanta| > 0
  {
    if Demotes(cfg, c) then Lowered(cfg, c.queue) else c.queue
  }

  function HopsOf(cfg: PolicyConfig, totals: map<string, (real, real)>, c: RuntimeCall): (hops: seq<nat>)
    requires |cfg.quanta| > 0
    ensures forall k :: 0 <= k < |hops| ==> hops[k] < |cfg.quanta|
  {
    (if Demotes(cfg, c) then [Lowered(cfg, c.queue)] else [])
    + if Promotes(cfg, totals, c, QueueNow(cfg, c)) then [0] else []
  }

  /** A call after its turn in a refresh. */
  function Requeued(cfg: PolicyConfig, totals: map<string, (real, real)>, c: RuntimeCall, place: Place): RuntimeCall
    requires |cfg.quanta| > 0
  {
    var moved := c.(queue := place.queue, order := place.order);
    if Promotes(cfg, totals, c, QueueNow(cfg, c))
      then moved.(quantum := cfg.quanta[0], waitWindow := 0.0, runWindow := 0.0)
    else if Demotes(cfg, c) then moved.(quantum := cfg.quanta[Lowered(cfg, c.queue)])
    else moved
  }

  /** Promotion and demotion never touch what a call has executed or waited in total. */
  lemma RequeuedAccounts(cfg: PolicyConfig, totals: map<string, (real, real)>, c: RuntimeCall, place: Place,
                         since: real, batch: real)
    requires |cfg.quanta| > 0 && Balanced(c, since, batch) && Windowed(c)
    ensures var c' := Requeued(cfg, totals, c, place);
      && Balanced(c', since, batch) && Windowed(c')
      && c'.executed == c.executed && c'.waited == c.waited && c'.lastUpdate == c.lastUpdate
      && c'.scheduled == c.scheduled
  {
  }

  function AllHops(cfg: PolicyConfig, totals: map<string, (real, real)>, calls: Calls, now: real): (hops: Hops<string>)
    requires |cfg.quanta| > 0
    ensures hops.Keys == calls.Keys
    ensures forall i :: i in hops ==> hops[i] == HopsOf(cfg, totals, WaitUntil(calls[i], now))
  {
    map i | i in calls :: HopsOf(cfg, totals, WaitUntil(calls[i], now))
  }

  /** The line: every call, sorted by key. */
  ghost predicate IsLine(calls: Calls, line: seq<string>) {
    NoDup(line) && (forall i :: i in line <==> i in calls) && Sorted(line, Keys(calls))
  }

  /** The calls after a refresh that visited them in line order. */
  ghost predicate RefreshedTo(cfg: PolicyConfig, totals: map<string, (real, real)>, calls: Calls, line: seq<string>,
                              now: real, counter: nat, calls': Calls, counter': nat)
    requires |cfg.quanta| > 0
  {
    IsLine(calls, line) ==>
      var keys := RefreshKeys(Keys(calls), line, AllHops(cfg, totals, calls, now), counter);
      && counter' == keys.1 && calls'.Keys == calls.Keys
      && forall i :: i in calls ==> calls'[i] == Requeued(cfg, totals, WaitUntil(calls[i], now), keys.0[i])
  }

  /** One call's turn: demotion, then promotion, each to the tail of its level under a fresh stamp. */
  method RequeueOne(cfg: PolicyConfig, totals: map<string, (real, real)>, c0: RuntimeCall, counter0: nat)
      returns (c: RuntimeCall, counter: nat)
    requires ValidPolicy(cfg)
    ensures var hops := HopsOf(cfg, totals, c0);
      && counter == counter0 + |hops|
      && c == Requeued(cfg, totals, c0, if hops == [] then Place(c0.queue, c0.order)
         else Place(hops[|hops| - 1], counter))
  {
    c, counter := c0, counter0;
    if cfg.kind == Fcfs { return; }
    if c.quantum <= 0.0 {
      c := c.(queue := if c.queue + 1 < |cfg.quanta| then c.queue + 1 else |cfg.quanta| - 1);
      c := c.(quantum := cfg.quanta[c.queue]);
      counter := counter + 1;
      c := c.(order := counter);
    }
    var (service, wait) := if c.pid in totals then totals[c.pid] else (0.0, 0.0);
    if cfg.kind == Mlfq {
      service, wait := 0.0, 0.0;
    }
    if c.queue != 0 && (wait + c.waitWindow) / MaxReal(0.000000001, service + c.runWindow) >= cfg.beta {
      c := c.(queue := 0, quantum := cfg.quanta[0], waitWindow := 0.0, runWindow := 0.0);
      counter := counter + 1;
      c := c.(order := counter);
    }
  }

  /** Calls of the line visited so far carry their new keys; the others are untouched. */
  ghost predicate Visited(cfg: PolicyConfig, totals: map<string, (real, real)>, calls0: Calls, line: seq<string>,
                          k: nat, now: real, counter0: nat, calls: Calls, counter: nat)
    requires |cfg.quanta| > 0 && IsLine(calls0, line) && k <= |line|
  {
    var hops := AllHops(cfg, totals, calls0, now);
    && (forall i :: i in line[..k] ==> i in calls0)
    && var keys := RefreshKeys(Keys(calls0), line[..k], hops, counter0);
      && counter == keys.1 && calls.Keys == calls0.Keys
      && (forall i :: i in line[..k] ==> calls[i] == Requeued(cfg, totals, WaitUntil(calls0[i], now), keys.0[i]))
      && (forall i :: i in calls0 && i !in line[..k] ==> calls[i] == calls0[i])
  }

  lemma KeysNext(p: Places<string>, line: seq<string>, k: nat, hops: Hops<string>, counter: nat)
    requires k < |line| && NoDup(line) && forall i :: i in line ==> i in p && i in hops
    ensures line[k] in line && line[k] !in line[..k] && (forall i :: i in line[..k] ==> i in line)
      && (forall i :: i in line[..k + 1] <==> i in line[..k] || i == line[k])
    ensures var was, own := RefreshKeys(p, line[..k], hops, counter), hops[line[k]];
      var now := RefreshKeys(p, line[..k + 1], hops, counter);
      && now.1 == was.1 + |own|
      && now.0 == (if own == [] then was.0 else was.0[line[k] := Place(own[|own| - 1], now.1)])
      && was.0[line[k]] == p[line[k]]
  {
    hide HopKeys;
    TakeMore(line, k);
    assert line[..k + 1][..k] == line[..k] && line[k] !in line[..k];
    RefreshKeysResult(p, line[..k], hops, counter);
    var was := RefreshKeys(p, line[..k], hops, counter);
    HopKeysResult(was.0, line[k], hops[line[k]], was.1);
  }

  lemma VisitNext(cfg: PolicyConfig, totals: map<string, (real, real)>, calls0: Calls, line: seq<string>, k: nat,
                  now: real, counter0: nat, calls: Calls, counter: nat, c: RuntimeCall, counter': nat)
    requires |cfg.quanta| > 0 && IsLine(calls0, line) && k < |line|
    requires Visited(cfg, totals, calls0, line, k, now, counter0, calls, counter)
    requires line[k] in calls0
    requires var c0 := WaitUntil(calls0[line[k]], now);
      var hops := HopsOf(cfg, totals, c0);
      && counter' == counter + |hops|
      && c == Requeued(cfg, totals, c0, if hops == [] then Place(c0.queue, c0.order)
         else Place(hops[|hops| - 1], counter'))
    ensures Visited(cfg, totals, calls0, line, k + 1, now, counter0, calls[line[k] := c], counter')
  {
    hide RefreshKeys, HopsOf, Requeued, Sorted;
    KeysNext(Keys(calls0), line, k, AllHops(cfg, totals, calls0, now), counter0);
  }

  /** `refresh`, over a snapshot of the line. */
  method RefreshAll(cfg: PolicyConfig, totals: map<string, (real, real)>, calls0: Calls, line: seq<string>, now: real,
                    counter0: nat) returns (calls: Calls, counter: nat)
    requires ValidPolicy(cfg) && IsLine(calls0, line)
    ensures RefreshedTo(cfg, totals, calls0, line, now, counter0, calls, counter)
  {
    hide Visited, Sorted, RefreshKeys, HopsOf, Requeued, Keys, AllHops, IsLine, ValidPolicy, WaitUntil;
    calls, counter := calls0, counter0;
    VisitNone(cfg, totals, calls0, line, now, counter0);
    for k := 0 to |line|
      invariant Visited(cfg, totals, calls0, line, k, now, counter0, calls, counter)
    {
      VisitStill(cfg, totals, calls0, line, k, now, counter0, calls, counter);
      var c, next := RequeueOne(cfg, totals, WaitUntil(calls[line[k]], now), counter);
      VisitNext(cfg, totals, calls0, line, k, now, counter0, calls, counter, c, next);
      calls, counter := calls[line[k] := c], next;
    }
    VisitAll(cfg, totals, calls0, line, now, counter0, calls, counter);
  }

  lemma VisitNone(cfg: PolicyConfig, totals: map<string, (real, real)>, calls: Calls, line: seq<string>, now: real,
                  counter: nat)
    requires ValidPolicy(cfg) && IsLine(calls, line)
    ensures |cfg.quanta| > 0 && Visited(cfg, totals, calls, line, 0, now, counter, calls, counter)
  {
  }

  lemma VisitStill(cfg: PolicyConfig, totals: map<string, (real, real)>, calls0: Calls, line: seq<string>, k: nat,
                   now: real, counter0: nat, calls: Calls, counter: nat)
    requires |cfg.quanta| > 0 && IsLine(calls0, line) && k < |line|
    requires Visited(cfg, totals, calls0, line, k, now, counter0, calls, counter)
    ensures line[k] in calls0 && line[k] in calls && calls[line[k]] == calls0[line[k]]
  {
    hide RefreshKeys, HopsOf, Requeued, Sorted;
    assert line[k] in line;
    TakeMore(line, k);
    assert line[k] !in line[..k];
  }

  lemma VisitAll(cfg: PolicyConfig, totals: map<string, (real, real)>, calls0: Calls, line: seq<string>, now: real,
                 counter0: nat, calls: Calls, counter: nat)
    requires |cfg.quanta| > 0 && IsLine(calls0, line)
    requires Visited(cfg, totals, calls0, line, |line|, now, counter0, calls, counter)
    ensures RefreshedTo(cfg, totals, calls0, line, now, counter0, calls, counter)
  {
    hide RefreshKeys, HopsOf, Requeued, Sorted;
    TakeAll(line);
  }

  // ---- Keys and real queues ------------------------------------------------------------

  /** Sorting by key reads the real queues level by level. */
  lemma LineIsFlatten(calls: Calls, lines: seq<seq<string>>, counter: nat, line: seq<string>)
    requires Agrees(lines, Keys(calls)) && Stamped(Keys(calls), counter) && IsLine(calls, line)
    ensures line == Flatten(lines)
  {
    FlattenSorted(lines, Keys(calls));
    FlattenMembers(lines);
    SortedUnique(Flatten(lines), line, Keys(calls));
  }

  /** After a refresh the keys describe the queues that one demotes and promotes by hand, and all accounts still
      balance. */
  lemma RefreshQueues(cfg: PolicyConfig, totals: map<string, (real, real)>, calls: Calls, lines: seq<seq<string>>,
                      counter: nat, line: seq<string>, now: real, calls': Calls, counter': nat)
    requires ValidPolicy(cfg) && |lines| == |cfg.quanta| && Agrees(lines, Keys(calls)) && Stamped(Keys(calls), counter)
      && IsLine(calls, line)
    requires RefreshedTo(cfg, totals, calls, line, now, counter, calls', counter')
    ensures HopsFit(AllHops(cfg, totals, calls, now), line, |lines|)
    ensures forall i :: i in line ==> i in Keys(calls) && Keys(calls)[i].queue < |lines|
    ensures Agrees(RefreshDeques(lines, Keys(calls), line, AllHops(cfg, totals, calls, now)), Keys(calls'))
    ensures Stamped(Keys(calls'), counter')
  {
    hide RefreshKeys, RefreshDeques, HopsOf, Sorted, Stamped, ValidPolicy;
    QuantaExist(cfg);
    var p, hops := Keys(calls), AllHops(cfg, totals, calls, now);
    RefreshAgrees(lines, p, line, hops, counter);
    KeysRefreshed(cfg, totals, calls, line, now, counter, calls', counter');
  }

  lemma QuantaExist(cfg: PolicyConfig)
    requires ValidPolicy(cfg)
    ensures |cfg.quanta| > 0
  {
  }

  lemma KeysRefreshed(cfg: PolicyConfig, totals: map<string, (real, real)>, calls: Calls, line: seq<string>, now: real,
                      counter: nat, calls': Calls, counter': nat)
    requires |cfg.quanta| > 0 && IsLine(calls, line)
      && RefreshedTo(cfg, totals, calls, line, now, counter, calls', counter')
    ensures Keys(calls') == RefreshKeys(Keys(calls), line, AllHops(cfg, totals, calls, now), counter).0
  {
    hide RefreshKeys, HopsOf, Sorted, Requeued, NoDup;
    var keys := RefreshKeys(Keys(calls), line, AllHops(cfg, totals, calls, now), counter).0;
    forall i | i in calls ensures Keys(calls')[i] == keys[i] {
      RequeuedPlace(cfg, totals, WaitUntil(calls[i], now), keys[i]);
    }
  }

  lemma RequeuedPlace(cfg: PolicyConfig, totals: map<string, (real, real)>, c: RuntimeCall, place: Place)
    requires |cfg.quanta| > 0
    ensures Requeued(cfg, totals, c, place).queue == place.queue && Requeued(cfg, totals, c, place).order == place.order
  {
  }

  /** While a call keeps its place in the first queue, admissions, refreshes and removals put nobody new ahead of it. */
  lemma NobodyOvertakes(p: Places<string>, line: seq<string>, hops: Hops<string>, counter: nat, x: string, y: string,
                        q: nat)
    requires NoDup(line) && (forall i :: i in line <==> i in p) && (forall i :: i in line ==> i in hops)
      && Stamped(p, counter)
    requires x in p && p[x].queue == 0 && hops[x] == [] && y in p
    ensures var keys := RefreshKeys(p, line, hops, counter).0; Before(keys[y], keys[x]) ==> Before(p[y], p[x])
    ensures !Before(Place(q, counter + 1), p[x])
  {
    RefreshKeysResult(p, line, hops, counter);
  }

  /** One refresh, level by level: the calls that stay keep their order at the front, those that moved there follow in
      the order of the whole line - whether the levels are deques, as in the simulator, or keys, as here. */
  lemma RefreshLayout(cfg: PolicyConfig, totals: map<string, (real, real)>, calls: Calls, lines: seq<seq<string>>,
                      counter: nat, line: seq<string>, now: real, calls': Calls, counter': nat, line': seq<string>,
                      q: nat)
    requires ValidPolicy(cfg) && |lines| == |cfg.quanta| && Agrees(lines, Keys(calls)) && Stamped(Keys(calls), counter)
      && IsLine(calls, line)
    requires RefreshedTo(cfg, totals, calls, line, now, counter, calls', counter') && IsLine(calls', line')
      && q < |lines|
    ensures var hops := AllHops(cfg, totals, calls, now);
      && HopsFit(hops, line, |lines|) && (forall i :: i in line ==> i in Keys(calls) && Keys(calls)[i].queue < |lines|)
      && var deques := RefreshDeques(lines, Keys(calls), line, hops);
        line' == Flatten(deques) && deques[q] == Filter(lines[q], Staying(line, hops)) + Filter(line, Landing(hops, q))
  {
    hide RefreshKeys, RefreshDeques, HopsOf, ValidPolicy, RefreshedTo, Flatten, IsLine;
    RefreshQueues(cfg, totals, calls, lines, counter, line, now, calls', counter');
    var hops := AllHops(cfg, totals, calls, now);
    LineIsFlatten(calls', RefreshDeques(lines, Keys(calls), line, hops), counter', line');
    LineParts(calls, line);
    RefreshShape(lines, Keys(calls), line, hops, counter, q);
  }

  lemma LineParts(calls: Calls, line: seq<string>)
    requires IsLine(calls, line)
    ensures NoDup(line) && forall i :: i in line ==> i in Keys(calls)
  {
  }

  /** The ids of a dictionary, in some order. */
  method Listed(calls: Calls) returns (ids: seq<string>)
    ensures NoDup(ids) && forall i :: i in ids <==> i in calls
  {
    ids := [];
    var todo := calls.Keys;
    while todo != {}
      invariant todo <= calls.Keys && NoDup(ids) && forall i :: i in ids <==> i in calls && i !in todo
      decreases |todo|
    {
      var i :| i in todo;
      ids, todo := ids + [i], todo - {i};
    }
  }

  /** Keys describe real queues, and every call's waited time plus its time on batches is the time since its
      admission. */
  ghost predicate Books(cfg: PolicyConfig, calls: Calls, counter: nat, lines: seq<seq<string>>,
                        since: map<string, real>, batch: map<string, real>) {
    && ValidPolicy(cfg) && |lines| == |cfg.quanta|
    && Agrees(lines, Keys(calls)) && Stamped(Keys(calls), counter)
    && since.Keys == calls.Keys && batch.Keys == calls.Keys
    && (forall i :: i in calls ==> Balanced(calls[i], since[i], batch[i]) && Windowed(calls[i]))
  }

  /** The clock has not gone back. */
  ghost predicate UpTo(calls: Calls, now: real) {
    forall i :: i in calls ==> calls[i].lastUpdate <= now
  }

  function Fresh(cfg: PolicyConfig, pid: string, initial: real, q: nat, order: nat, now: real): RuntimeCall
    requires q < |cfg.quanta|
  {
    RuntimeCall(pid, initial, q, order, cfg.quanta[q], now, 0.0, 0.0, 0.0, 0.0, false)
  }

  lemma AdmitBooks(cfg: PolicyConfig, calls: Calls, counter: nat, lines: seq<seq<string>>, since: map<string, real>,
                   batch: map<string, real>, rid: string, pid: string, initial: real, q: nat, now: real)
    requires Books(cfg, calls, counter, lines, since, batch) && rid !in calls && q < |cfg.quanta| == |lines|
    ensures var calls' := calls[rid := Fresh(cfg, pid, initial, q, counter + 1, now)];
      && Books(cfg, calls', counter + 1, Push(lines, rid, q), since[rid := now], batch[rid := 0.0])
      && (UpTo(calls, now) ==> UpTo(calls', now))
  {
    hide Agrees, Stamped, ValidPolicy;
    PushAgrees(lines, Keys(calls), rid, q, counter);
    assert Keys(calls[rid := Fresh(cfg, pid, initial, q, counter + 1, now)])
      == Keys(calls)[rid := Place(q, counter + 1)];
  }

  lemma FinishBooks(cfg: PolicyConfig, calls: Calls, counter: nat, lines: seq<seq<string>>, since: map<string, real>,
                    batch: map<string, real>, rid: string)
    requires Books(cfg, calls, counter, lines, since, batch) && rid in calls
    ensures calls[rid].queue < |lines|
    ensures Books(cfg, calls - {rid}, counter, Take(lines, rid, calls[rid].queue), since - {rid}, batch - {rid})
  {
    hide Agrees, Stamped, ValidPolicy;
    QueueExists(lines, Keys(calls), rid);
    TakeAgrees(lines, Keys(calls), rid, counter);
    assert Keys(calls - {rid}) == Keys(calls) - {rid};
  }

  lemma QueueExists(lines: seq<seq<string>>, p: Places<string>, rid: string)
    requires Agrees(lines, p) && rid in p
    ensures p[rid].queue < |lines|
  {
  }

  /** Steps that move no call keep the books as long as the accounts balance. */
  lemma SameKeysBooks(cfg: PolicyConfig, calls: Calls, calls': Calls, counter: nat, lines: seq<seq<string>>,
                      since: map<string, real>, batch: map<string, real>, batch': map<string, real>)
    requires Books(cfg, calls, counter, lines, since, batch) && calls'.Keys == calls.Keys == batch'.Keys
    requires forall i :: i in calls ==> calls'[i].queue == calls[i].queue && calls'[i].order == calls[i].order
    requires forall i :: i in calls ==> Balanced(calls'[i], since[i], batch'[i]) && Windowed(calls'[i])
    ensures Books(cfg, calls', counter, lines, since, batch')
  {
    hide Agrees, Stamped, ValidPolicy, Balanced, Windowed;
    assert Keys(calls') == Keys(calls);
  }

  // ---- Charging an execution ---------------------------------------------------------------

  datatype Charging = Charged | BadDuration | Unknown(rid: string)

  /** How many of the first calls of the list are known. */
  function Known(calls: Calls, rids: seq<string>): (n: nat)
    ensures n <= |rids| && (forall k :: 0 <= k < n ==> rids[k] in calls) && (n < |rids| ==> rids[n] !in calls)
  {
    if rids == [] || rids[0] !in calls then 0 else 1 + Known(calls, rids[1..])
  }

  /** Mentioning a call several times charges it several times. */
  function Charge(c: RuntimeCall, times: nat, seconds: real, now: real): (r: RuntimeCall)
    ensures var total := times as real * seconds;
      r == if times == 0 then c
        else c.(executed := c.executed + total, runWindow := c.runWindow + total, quantum := c.quantum - total,
                scheduled := false, lastUpdate := now)
  {
    if times == 0 then c else Ran(c, times as real * seconds, now)
  }

  ghost predicate Charges(calls: Calls, batch: map<string, real>, ids: seq<string>, seconds: real, now: real,
                          calls': Calls, batch': map<string, real>) {
    && calls'.Keys == calls.Keys == batch.Keys == batch'.Keys
    && forall i :: i in calls ==>
        && calls'[i] == Charge(calls[i], multiset(ids)[i], seconds, now)
        && batch'[i] == batch[i] + if i in ids then Aboard(calls[i], now) else 0.0
  }

  lemma ChargesNone(calls: Calls, batch: map<string, real>, seconds: real, now: real)
    requires calls.Keys == batch.Keys
    ensures Charges(calls, batch, [], seconds, now, calls, batch)
  {
  }

  lemma ChargeTwice(c: RuntimeCall, times: nat, seconds: real, now: real)
    ensures Ran(Charge(c, times, seconds, now), seconds, now) == Charge(c, times + 1, seconds, now)
    ensures Aboard(Charge(c, times, seconds, now), now) == if times == 0 then Aboard(c, now) else 0.0
  {
    assert (times + 1) as real * seconds == times as real * seconds + seconds;
  }

  lemma ChargesMore(calls: Calls, batch: map<string, real>, ids: seq<string>, seconds: real, now: real, calls': Calls,
                    batch': map<string, real>, i: string)
    requires Charges(calls, batch, ids, seconds, now, calls', batch') && i in calls
    ensures i in calls' && i in batch'
    ensures Charges(calls, batch, ids + [i], seconds, now, calls'[i := Ran(calls'[i], seconds, now)],
      batch'[i := batch'[i] + Aboard(calls'[i], now)])
  {
    hide Ran, Aboard, Charge;
    assert multiset(ids + [i]) == multiset(ids) + multiset{i};
    ChargeTwice(calls[i], multiset(ids)[i], seconds, now);
  }

  /** The account survives an execution report exactly if the call is on the batch, or no time has passed. */
  predicate OnBatch(c: RuntimeCall, now: real) { c.scheduled || now == c.lastUpdate }

  lemma ChargeBalances(c: RuntimeCall, times: nat, seconds: real, now: real, since: real, batch: real)
    requires c.lastUpdate <= now && Balanced(c, since, batch) && Windowed(c) && seconds >= 0.0
    ensures var c' := Charge(c, times, seconds, now);
      && (Balanced(c', since, batch + if times > 0 then Aboard(c, now) else 0.0) <==> times == 0 || OnBatch(c, now))
      && Windowed(c') && c'.lastUpdate <= now && c'.queue == c.queue && c'.order == c.order
  {
    var total := times as real * seconds;
    if times > 0 {
      RanBalances(c, total, now, since, batch);
    }
  }

  lemma ChargedBooks(cfg: PolicyConfig, calls: Calls, calls': Calls, counter: nat, lines: seq<seq<string>>,
                     since: map<string, real>, batch: map<string, real>, batch': map<string, real>, ids: seq<string>,
                     seconds: real, now: real)
    requires Books(cfg, calls, counter, lines, since, batch) && UpTo(calls, now) && seconds >= 0.0
    requires Charges(calls, batch, ids, seconds, now, calls', batch') && forall i :: i in ids ==> i in calls
    ensures UpTo(calls', now)
    ensures Books(cfg, calls', counter, lines, since, batch') <==> forall i :: i in ids ==> OnBatch(calls[i], now)
  {
    hide Agrees, Stamped, ValidPolicy, Balanced, Windowed, Charge, OnBatch;
    forall i | i in calls
      ensures (Balanced(calls'[i], since[i], batch'[i]) <==> i !in ids || OnBatch(calls[i], now)) && Windowed(calls'[i])
      ensures calls'[i].lastUpdate <= now && calls'[i].queue == calls[i].queue && calls'[i].order == calls[i].order
    {
      ChargeBalances(calls[i], multiset(ids)[i], seconds, now, since[i], batch[i]);
    }
    if forall i :: i in ids ==> OnBatch(calls[i], now) {
      SameKeysBooks(cfg, calls, calls', counter, lines, since, batch, batch');
    }
  }

  lemma BookKeys(cfg: PolicyConfig, calls: Calls, counter: nat, lines: seq<seq<string>>, since: map<string, real>,
                 batch: map<string, real>)
    requires Books(cfg, calls, counter, lines, since, batch)
    ensures calls.Keys == batch.Keys
  {
  }

  // ---- Starting a batch ----------------------------------------------------------------------

  /** Everybody's clock is brought up to date, and the calls `rids` are on the batch. */
  ghost predicate Begun(calls: Calls, ids: seq<string>, rids: seq<string>, now: real, calls': Calls) {
    && calls'.Keys == calls.Keys
    && forall i :: i in calls ==>
       calls'[i] == if i in ids then WaitUntil(calls[i], now).(scheduled := i in rids) else calls[i]
  }

  lemma BegunNone(calls: Calls, rids: seq<string>, now: real)
    ensures Begun(calls, [], rids, now, calls)
  {
  }

  lemma BegunAll(calls: Calls, ids: seq<string>, rids: seq<string>, now: real, calls': Calls)
    requires Begun(calls, ids, rids, now, calls') && forall i :: i in calls <==> i in ids
    ensures calls'.Keys == calls.Keys && forall i :: i in calls ==>
      calls'[i] == WaitUntil(calls[i], now).(scheduled := i in rids)
  {
    hide WaitUntil;
  }

  lemma BegunMore(calls: Calls, ids: seq<string>, rids: seq<string>, now: real, calls': Calls, i: string)
    requires Begun(calls, ids, rids, now, calls') && i in calls && i !in ids
    ensures i in calls' && Begun(calls, ids + [i], rids, now,
      calls'[i := WaitUntil(calls'[i], now).(scheduled := i in rids)])
  {
    hide WaitUntil;
  }

  lemma BegunBalances(c: RuntimeCall, scheduled: bool, since: real, batch: real)
    requires Balanced(c, since, batch) && Windowed(c)
    ensures Balanced(c.(scheduled := scheduled), since, batch) && Windowed(c.(scheduled := scheduled))
  {
  }

  lemma BeginBooks(cfg: PolicyConfig, calls: Calls, calls': Calls, counter: nat, lines: seq<seq<string>>,
                   since: map<string, real>, batch: map<string, real>, batch': map<string, real>, rids: seq<string>,
                   now: real)
    requires Books(cfg, calls, counter, lines, since, batch) && UpTo(calls, now)
      && calls'.Keys == calls.Keys == batch'.Keys
    requires forall i :: i in calls ==>
      calls'[i] == WaitUntil(calls[i], now).(scheduled := i in rids) && batch'[i] == batch[i] + Aboard(calls[i], now)
    ensures Books(cfg, calls', counter, lines, since, batch') && UpTo(calls', now)
  {
    hide Agrees, Stamped, ValidPolicy, Balanced, Windowed, Aboard;
    forall i | i in calls ensures Balanced(calls'[i], since[i], batch'[i]) && Windowed(calls'[i])
      && calls'[i].lastUpdate <= now {
      WaitBalances(calls[i], now, since[i], batch[i]);
      BegunBalances(WaitUntil(calls[i], now), i in rids, since[i], batch'[i]);
    }
    SameKeysBooks(cfg, calls, calls', counter, lines, since, batch, batch');
  }

  /** What a refresh makes of the queues and the batch times. */
  ghost predicate RefreshesTo(cfg: PolicyConfig, totals: map<string, (real, real)>, calls: Calls, counter: nat,
                              lines: seq<seq<string>>, batch: map<string, real>, now: real, calls': Calls,
                              counter': nat, lines': seq<seq<string>>, batch': map<string, real>)
    requires |cfg.quanta| > 0
  {
    var line, hops := Flatten(lines), AllHops(cfg, totals, calls, now);
    && IsLine(calls, line) && RefreshedTo(cfg, totals, calls, line, now, counter, calls', counter')
    && HopsFit(hops, line, |lines|) && (forall i :: i in line ==> i in Keys(calls) && Keys(calls)[i].queue < |lines|)
    && lines' == RefreshDeques(lines, Keys(calls), line, hops)
    && calls'.Keys == calls.Keys == batch.Keys == batch'.Keys
    && (forall i :: i in calls ==> batch'[i] == batch[i] + Aboard(calls[i], now))
    && (forall i :: i in calls ==>
       calls'[i].executed == calls[i].executed && calls'[i].waited >= calls[i].waited && calls'[i].lastUpdate == now)
  }

  /** What a refresh at `now` makes of one call, given the totals of its program: its waiting is brought up to date, a
      spent quantum takes it one level down with the quantum of that level, and waiting of `beta` times the service
      takes it from below to the first level with both windows empty; a call that moves goes to the tail. */
  ghost predicate RefreshedAs(cfg: PolicyConfig, program: (real, real), now: real, counter: nat, c: RuntimeCall,
                              c': RuntimeCall)
    requires |cfg.quanta| > 0
  {
    var more := if c.scheduled || now <= c.lastUpdate then 0.0 else now - c.lastUpdate;
    var (service, wait) := if cfg.kind == Mlfq then (0.0, 0.0) else program;
    var whole := if service + c.runWindow > 0.000000001 then service + c.runWindow else 0.000000001;
    var last, spent := |cfg.quanta| - 1, cfg.kind != Fcfs && c.quantum <= 0.0;
    var level := if spent then Min(c.queue + 1, last) else c.queue;
    && c'.pid == c.pid && c'.inherited == c.inherited && c'.executed == c.executed && c'.scheduled == c.scheduled
    && c'.waited == c.waited + more && c'.lastUpdate == now
    && (if cfg.kind != Fcfs && level > 0 && wait + c.waitWindow + more >= cfg.beta * whole then
          && c'.queue == 0 && c'.quantum == cfg.quanta[0] && c'.waitWindow == 0.0 && c'.runWindow == 0.0
          && c'.order > counter
        else
          && c'.queue == level && c'.waitWindow == c.waitWindow + more && c'.runWindow == c.runWindow
          && (spent ==> 0 <= level <= last && c'.quantum == cfg.quanta[level] && c'.order > counter)
          && (!spent ==> c'.quantum == c.quantum && c'.order == c.order))
  }

  lemma QuotientReaches(part: real, whole: real, beta: real)
    requires whole > 0.0
    ensures part / whole >= beta <==> part >= beta * whole
  {
    var ratio := part / whole;
    assert ratio * whole == part;
    if ratio >= beta {
      assert (ratio - beta) * whole >= 0.0;
    } else {
      assert (beta - ratio) * whole > 0.0;
    }
  }

  lemma RequeuedAs(cfg: PolicyConfig, totals: map<string, (real, real)>, now: real, counter: nat, c: RuntimeCall,
                   place: Place)
    requires |cfg.quanta| > 0
    requires var hops := HopsOf(cfg, totals, WaitUntil(c, now));
      if hops == [] then place == Place(c.queue, c.order)
      else counter < place.order && place.queue == hops[|hops| - 1]
    ensures RefreshedAs(cfg, if c.pid in totals then totals[c.pid] else (0.0, 0.0), now, counter, c,
      Requeued(cfg, totals, WaitUntil(c, now), place))
  {
    var waiting := WaitUntil(c, now);
    var (service, wait) := Totals(cfg, totals, c.pid);
    QuotientReaches(wait + waiting.waitWindow, MaxReal(0.000000001, service + c.runWindow), cfg.beta);
  }

  lemma RefreshRows(cfg: PolicyConfig, totals: map<string, (real, real)>, calls: Calls, line: seq<string>, now: real,
                    counter: nat, calls': Calls, counter': nat)
    requires |cfg.quanta| > 0 && IsLine(calls, line)
    requires RefreshedTo(cfg, totals, calls, line, now, counter, calls', counter')
    ensures calls'.Keys == calls.Keys && forall i :: i in calls ==>
      RefreshedAs(cfg, if calls[i].pid in totals then totals[calls[i].pid] else (0.0, 0.0), now, counter, calls[i],
        calls'[i])
  {
    hide RefreshKeys, HopsOf, Sorted, Requeued, NoDup, RefreshedAs;
    var hops := AllHops(cfg, totals, calls, now);
    RefreshKeysResult(Keys(calls), line, hops, counter);
    forall i | i in calls
      ensures RefreshedAs(cfg, if calls[i].pid in totals then totals[calls[i].pid] else (0.0, 0.0), now, counter,
        calls[i], calls'[i])
    {
      assert i in line && i in hops;
      RequeuedAs(cfg, totals, now, counter, calls[i], RefreshKeys(Keys(calls), line, hops, counter).0[i]);
    }
  }

  /** The moves between levels that a refresh may make of a call on a level of the configuration. */
  lemma RefreshLevels(cfg: PolicyConfig, program: (real, real), now: real, counter: nat, c: RuntimeCall,
                      c': RuntimeCall)
    requires |cfg.quanta| > 0 && c.queue < |cfg.quanta| && RefreshedAs(cfg, program, now, counter, c, c')
    ensures cfg.kind == Fcfs ==> c'.queue == c.queue && c'.quantum == c.quantum && c'.order == c.order
    ensures cfg.kind != Fcfs && c.quantum <= 0.0 && c'.queue != 0 ==>
      c'.queue == (if c.queue + 1 < |cfg.quanta| then c.queue + 1 else c.queue) && c'.quantum == cfg.quanta[c'.queue]
    ensures cfg.kind != Fcfs && c.quantum > 0.0 && c'.queue != 0 ==> c'.queue == c.queue && c'.quantum == c.quantum
    ensures c'.queue < c.queue ==> c'.queue == 0
    ensures c.queue > 0 ==> (c'.queue == 0 <==>
      var (service, wait) := if cfg.kind == Mlfq then (0.0, 0.0) else program;
      var waiting := wait + c.waitWindow + if c.scheduled || now <= c.lastUpdate then 0.0 else now - c.lastUpdate;
      var whole := if service + c.runWindow > 0.000000001 then service + c.runWindow else 0.000000001;
      cfg.kind != Fcfs && waiting >= cfg.beta * whole)
  {
  }

  lemma RefreshBooks(cfg: PolicyConfig, totals: map<string, (real, real)>, calls: Calls, counter: nat,
                     lines: seq<seq<string>>, since: map<string, real>, batch: map<string, real>, line: seq<string>,
                     now: real, calls': Calls, counter': nat, batch': map<string, real>)
    requires Books(cfg, calls, counter, lines, since, batch) && UpTo(calls, now) && IsLine(calls, line)
      && line == Flatten(lines)
    requires ValidPolicy(cfg) && RefreshedTo(cfg, totals, calls, line, now, counter, calls', counter')
    requires batch'.Keys == calls.Keys && forall i :: i in calls && i in batch ==>
      batch'[i] == batch[i] + Aboard(calls[i], now)
    ensures HopsFit(AllHops(cfg, totals, calls, now), line, |lines|)
    ensures forall i :: i in line ==> i in Keys(calls) && Keys(calls)[i].queue < |lines|
    ensures var lines' := RefreshDeques(lines, Keys(calls), line, AllHops(cfg, totals, calls, now));
      && Books(cfg, calls', counter', lines', since, batch') && UpTo(calls', now)
      && RefreshesTo(cfg, totals, calls, counter, lines, batch, now, calls', counter', lines', batch')
  {
    hide Agrees, Stamped, RefreshDeques, HopsOf, Flatten, RefreshedTo, Balanced, Windowed, IsLine, HopsFit, ValidPolicy;
    QuantaExist(cfg);
    RefreshQueues(cfg, totals, calls, lines, counter, line, now, calls', counter');
    RefreshAccounts(cfg, totals, calls, line, now, counter, calls', counter', since, batch);
    var lines' := RefreshDeques(lines, Keys(calls), line, AllHops(cfg, totals, calls, now));
    RefreshEnds(cfg, calls, calls', counter', lines', since, batch, batch', now);
    hide Books, UpTo;
  }

  lemma RefreshEnds(cfg: PolicyConfig, calls: Calls, calls': Calls, counter: nat, lines: seq<seq<string>>,
                    since: map<string, real>, batch: map<string, real>, batch': map<string, real>, now: real)
    requires ValidPolicy(cfg) && |lines| == |cfg.quanta| && Agrees(lines, Keys(calls'))
      && Stamped(Keys(calls'), counter)
    requires calls'.Keys == calls.Keys == since.Keys == batch.Keys == batch'.Keys
    requires forall i :: i in calls ==> batch'[i] == batch[i] + Aboard(calls[i], now) && calls'[i].lastUpdate == now
    requires forall i :: i in calls ==>
      Balanced(calls'[i], since[i], batch[i] + Aboard(calls[i], now)) && Windowed(calls'[i])
    ensures Books(cfg, calls', counter, lines, since, batch') && UpTo(calls', now)
  {
    hide Agrees, Stamped, Balanced, Windowed, ValidPolicy, Aboard;
  }

  class RuntimeScheduler {
    const config: PolicyConfig
    const table: ProgramTable
    var calls: Calls
    var counter: nat
    ghost var lines: seq<seq<string>>
    ghost var since: map<string, real>
    ghost var batch: map<string, real>

    ghost predicate Valid()
      reads this
    {
      Books(config, calls, counter, lines, since, batch)
    }

    constructor (table: ProgramTable, config: PolicyConfig)
      requires ValidPolicy(config)
      ensures Valid() && this.table == table && this.config == config && calls == map[]
    {
      this.table, this.config := table, config;
      calls, counter := map[], 0;
      lines, since, batch := seq(|config.quanta|, q => []), map[], map[];
    }

    method Admit(rid: string, pid: string, now: real) returns (ok: bool)
      requires Valid() && UpTo(calls, now)
      modifies this, table
      ensures Valid() && UpTo(calls, now)
      ensures ok <==> rid !in old(calls) && Admitted(old(table.Contents()), pid, rid).Ok?
      ensures !ok ==> calls == old(calls) && counter == old(counter) && lines == old(lines)
      ensures !ok ==> table.Contents() == old(table.Contents())
      ensures ok ==> Admitted(old(table.Contents()), pid, rid) == Ok(table.Contents())
      ensures ok ==>
        var initial := if config.kind == Plas || config.kind == Atlas then old(table.programs)[pid].service else 0.0;
        && AdmitsTo(config, rid, pid, initial, now, old(calls), old(counter), old(lines), calls, counter, lines)
        && since == old(since)[rid := now] && batch == old(batch)[rid := 0.0]
        && EntersAs(config, pid, initial, old(counter) + 1, now, calls[rid])
    {
      hide Books, Push, Fresh, UpTo, Admitted, LevelOf, EntersAs;
      PolicyOf(config, calls, counter, lines, since, batch);
      if rid in calls {
        return false;
      }
      var found := table.Admit(pid, rid);
      if found.Err? {
        return false;
      }
      var initial := Inherits(config.kind, found.value.0);
      var q := QueueOf(config, initial);
      AdmitBooks(config, calls, counter, lines, since, batch, rid, pid, initial, q, now);
      FreshEnters(config, pid, initial, counter + 1, now);
      counter := counter + 1;
      var c := Fresh(config, pid, initial, q, counter, now);
      calls := calls[rid := c];
      lines := Push(lines, rid, q);
      since, batch := since[rid := now], batch[rid := 0.0];
      return true;
    }

    /** `sorted(calls, key)`. */
    method Line() returns (line: seq<string>)
      requires Valid()
      ensures IsLine(calls, line) && line == Flatten(lines)
    {
      hide Agrees, ValidPolicy, Balanced, Windowed;
      var ids := Listed(calls);
      line := Sort(ids, Keys(calls));
      SortSorted(ids, Keys(calls), counter);
      SortedNoDup(line, Keys(calls));
      LineIsFlatten(calls, lines, counter, line);
    }

    method Refresh(now: real)
      requires Valid() && UpTo(calls, now) && |config.quanta| > 0
      modifies this
      ensures Valid() && UpTo(calls, now) && since == old(since)
      ensures var totals := map pid | pid in table.programs :: (table.programs[pid].service, table.programs[pid].wait);
        RefreshesTo(config, totals, old(calls), old(counter), old(lines), old(batch), now, calls, counter, lines, batch)
      ensures calls.Keys == old(calls).Keys && forall i :: i in calls ==>
        var pid := old(calls)[i].pid;
        var program :=
          if pid in table.programs then (table.programs[pid].service, table.programs[pid].wait) else (0.0, 0.0);
        RefreshedAs(config, program, now, old(counter), old(calls)[i], calls[i])
    {
      hide Agrees, Stamped, RefreshDeques, RefreshedTo, RefreshesTo, Flatten, IsLine, Balanced, Windowed, ValidPolicy,
        AllHops, Books, UpTo, Keys, Aboard, AllAboard, RefreshedAs;
      PolicyOf(config, calls, counter, lines, since, batch);
      var totals := map pid | pid in table.programs :: (table.programs[pid].service, table.programs[pid].wait);
      var line := Line();
      var refreshed, next := RefreshAll(config, totals, calls, line, now, counter);
      RefreshRows(config, totals, calls, line, now, counter, refreshed, next);
      ghost var aboard := AllAboard(calls, batch, now);
      RefreshBooks(config, totals, calls, counter, lines, since, batch, line, now, refreshed, next, aboard);
      lines := RefreshDeques(lines, Keys(calls), line, AllHops(config, totals, calls, now));
      calls, counter, batch := refreshed, next, aboard;
    }

    /** Time spent in the batch so far, for every call. */
    static ghost function AllAboard(calls: Calls, batch: map<string, real>, now: real): (r: map<string, real>)
      ensures forall i :: i in r <==> i in calls && i in batch
      ensures forall i :: i in r ==> r[i] == batch[i] + Aboard(calls[i], now)
    {
      map i | i in calls && i in batch :: batch[i] + Aboard(calls[i], now)
    }

    /** `begin`: everybody's clock is brought up to date, and the batch starts. */
    method Begin(rids: seq<string>, now: real)
      requires Valid() && UpTo(calls, now)
      modifies this`calls, this`batch
      ensures Valid() && UpTo(calls, now) && calls.Keys == old(calls).Keys == old(batch).Keys == batch.Keys
      ensures forall i :: i in calls ==> calls[i] == WaitUntil(old(calls)[i], now).(scheduled := i in rids)
      ensures forall i :: i in calls ==> batch[i] == old(batch)[i] + Aboard(old(calls)[i], now)
    {
      hide Agrees, Stamped, ValidPolicy, WaitUntil, Aboard, Balanced, Windowed, UpTo, Books, Begun;
      ghost var before, aboard := calls, batch;
      PolicyOf(config, calls, counter, lines, since, batch);
      var ids := Listed(calls);
      assert Begun(before, ids[..0], rids, now, calls) by { BegunNone(calls, rids, now); }
      for k := 0 to |ids|
        invariant Begun(before, ids[..k], rids, now, calls)
      {
        var i := ids[k];
        TakeMore(ids, k);
        assert i in ids && i !in ids[..k];
        BegunMore(before, ids[..k], rids, now, calls, i);
        calls := calls[i := WaitUntil(calls[i], now).(scheduled := i in rids)];
      }
      TakeAll(ids);
      BegunAll(before, ids, rids, now, calls);
      batch := map i | i in before :: aboard[i] + Aboard(before[i], now);
      BeginBooks(config, before, calls, counter, lines, since, aboard, batch, rids, now);
    }

    /** `executed`: the measured duration is charged once for every mention of a call, up to the first unknown one. */
    method Executed(rids: seq<string>, seconds: real, now: real) returns (r: Charging)
      requires Valid() && UpTo(calls, now)
      modifies this`calls, this`batch
      ensures UpTo(calls, now) && calls.Keys == old(calls).Keys
      ensures r == BadDuration <==> seconds < 0.0
      ensures r == BadDuration ==> calls == old(calls) && batch == old(batch)
      ensures r.Unknown? ==> Known(old(calls), rids) < |rids| && r.rid == rids[Known(old(calls), rids)]
      ensures r == Charged ==> Known(old(calls), rids) == |rids|
      ensures r != BadDuration ==>
        Charges(old(calls), old(batch), rids[..Known(old(calls), rids)], seconds, now, calls, batch)
      ensures Valid() <==> r == BadDuration || forall i :: i in rids[..Known(old(calls), rids)] ==>
        OnBatch(old(calls)[i], now)
    {
      hide Books, Ran, Aboard, UpTo, Charges, OnBatch;
      if seconds < 0.0 {
        return BadDuration;
      }
      ghost var before, aboard := calls, batch;
      BookKeys(config, calls, counter, lines, since, batch);
      ChargesNone(calls, batch, seconds, now);
      var k := 0;
      while k < |rids| && rids[k] in calls
        invariant k <= Known(before, rids) && calls.Keys == before.Keys
        invariant Charges(before, aboard, rids[..k], seconds, now, calls, batch)
      {
        TakeMore(rids, k);
        ChargesMore(before, aboard, rids[..k], seconds, now, calls, batch, rids[k]);
        batch := batch[rids[k] := batch[rids[k]] + Aboard(calls[rids[k]], now)];
        calls := calls[rids[k] := Ran(calls[rids[k]], seconds, now)];
        k := k + 1;
      }
      ChargedBooks(config, before, calls, counter, lines, since, aboard, batch, rids[..k], seconds, now);
      r := if k < |rids| then Unknown(rids[k]) else Charged;
    }

    /** `finish`: the call leaves, and its program is charged. */
    method Finish(rid: string, now: real) returns (last: Option<RuntimeCall>)
      requires Valid() && UpTo(calls, now)
      modifies this, table
      ensures Valid() && UpTo(calls, now)
      ensures rid !in old(calls) ==>
        last == None && calls == old(calls) && lines == old(lines) && table.Contents() == old(table.Contents())
      ensures rid in old(calls) ==>
        var c := WaitUntil(old(calls)[rid], now);
        && last == Some(c) && calls == old(calls) - {rid}
        && old(calls)[rid].queue < |old(lines)| && lines == Take(old(lines), rid, old(calls)[rid].queue)
        && table.Contents() == Finished(old(table.Contents()), c.pid, rid, c.inherited, c.executed, c.waited,
           config.kind)
        && rid in old(batch) && rid in old(since)
        && c.waited + old(batch)[rid] + Aboard(old(calls)[rid], now) == now - old(since)[rid]
    {
      hide Agrees, Stamped, Take, ValidPolicy;
      if rid !in calls {
        return None;
      }
      WaitBalances(calls[rid], now, since[rid], batch[rid]);
      FinishBooks(config, calls, counter, lines, since, batch, rid);
      var c := WaitUntil(calls[rid], now);
      lines := Take(lines, rid, calls[rid].queue);
      calls := calls - {rid};
      since, batch := since - {rid}, batch - {rid};
      table.Finish(c.pid, rid, c.inherited, c.executed, c.waited, config.kind);
      return Some(c);
    }

    /** `fail_all`: after a failed step every call gives its request back. */
    method FailAll(now: real)
      requires Valid() && UpTo(calls, now)
      modifies this, table
      ensures Valid() && calls == map[]
    {
      hide Books, UpTo, WaitUntil, Finished, Take, Aboard;
      while calls.Keys != {}
        invariant Valid() && UpTo(calls, now)
        decreases calls.Keys
      {
        var rid :| rid in calls.Keys;
        var last := Finish(rid, now);
      }
    }
  }

  /** A call starts on the first level whose upper boundary lies above the service that it inherits, with the quantum of
      that level and empty accounts. */
  ghost predicate EntersAs(cfg: PolicyConfig, pid: string, initial: real, order: nat, now: real, c: RuntimeCall) {
    && c.pid == pid && c.inherited == initial && c.order == order && c.lastUpdate == now && !c.scheduled
    && c.executed == c.waited == c.runWindow == c.waitWindow == 0.0
    && c.queue < |cfg.quanta| && c.queue + 1 < |cfg.boundaries| && c.quantum == cfg.quanta[c.queue]
    && (cfg.boundaries[c.queue + 1].Finite? ==> initial < cfg.boundaries[c.queue + 1].value)
    && (forall k :: 1 <= k <= c.queue ==> cfg.boundaries[k].Finite? && cfg.boundaries[k].value <= initial)
  }

  lemma FreshEnters(cfg: PolicyConfig, pid: string, initial: real, order: nat, now: real)
    requires ValidPolicy(cfg)
    ensures EntersAs(cfg, pid, initial, order, now, Fresh(cfg, pid, initial, LevelOf(cfg, initial, 0), order, now))
  {
    LevelIsFirst(cfg, initial, 0);
  }

  lemma {:induction false} LevelIsFirst(cfg: PolicyConfig, service: real, q: nat)
    requires ValidPolicy(cfg) && q < |cfg.quanta|
    requires forall k :: 1 <= k <= q ==> cfg.boundaries[k].Finite? && cfg.boundaries[k].value <= service
    ensures var r := LevelOf(cfg, service, q);
      && (cfg.boundaries[r + 1].Finite? ==> service < cfg.boundaries[r + 1].value)
      && (forall k :: 1 <= k <= r ==> cfg.boundaries[k].Finite? && cfg.boundaries[k].value <= service)
    decreases |cfg.quanta| - q
  {
    if !Below(service, cfg.boundaries[q + 1]) && q + 1 < |cfg.quanta| {
      LevelIsFirst(cfg, service, q + 1);
    }
  }

  /** A fresh call at the tail of the level that its program's service falls into. */
  ghost predicate AdmitsTo(cfg: PolicyConfig, rid: string, pid: string, initial: real, now: real, calls: Calls,
                           counter: nat, lines: seq<seq<string>>, calls': Calls, counter': nat,
                           lines': seq<seq<string>>) {
    && ValidPolicy(cfg) && |lines| == |cfg.quanta|
    && var q := LevelOf(cfg, initial, 0);
      counter' == counter + 1 && calls' == calls[rid := Fresh(cfg, pid, initial, q, counter + 1, now)]
        && lines' == Push(lines, rid, q)
  }

  lemma PolicyOf(cfg: PolicyConfig, calls: Calls, counter: nat, lines: seq<seq<string>>, since: map<string, real>,
                 batch: map<string, real>)
    requires Books(cfg, calls, counter, lines, since, batch)
    ensures ValidPolicy(cfg) && batch.Keys == calls.Keys && |lines| == |cfg.quanta|
  {
  }

  lemma RefreshAccounts(cfg: PolicyConfig, totals: map<string, (real, real)>, calls: Calls, line: seq<string>,
                        now: real, counter: nat, calls': Calls, counter': nat, since: map<string, real>,
                        batch: map<string, real>)
    requires ValidPolicy(cfg) && IsLine(calls, line)
      && RefreshedTo(cfg, totals, calls, line, now, counter, calls', counter')
    requires since.Keys == calls.Keys && batch.Keys == calls.Keys
    requires forall i :: i in calls ==>
      calls[i].lastUpdate <= now && Balanced(calls[i], since[i], batch[i]) && Windowed(calls[i])
    ensures calls'.Keys == calls.Keys
    ensures forall i :: i in calls ==>
      && Balanced(calls'[i], since[i], batch[i] + Aboard(calls[i], now)) && Windowed(calls'[i])
      && calls'[i].executed == calls[i].executed && calls'[i].waited >= calls[i].waited && calls'[i].lastUpdate == now
  {
    hide RefreshKeys, Requeued, Balanced, Windowed, HopsOf;
    var keys := RefreshKeys(Keys(calls), line, AllHops(cfg, totals, calls, now), counter).0;
    forall i | i in calls
      ensures && Balanced(calls'[i], since[i], batch[i] + Aboard(calls[i], now)) && Windowed(calls'[i])
              && calls'[i].executed == calls[i].executed && calls'[i].waited >= calls[i].waited
              && calls'[i].lastUpdate == now
    {
      WaitBalances(calls[i], now, since[i], batch[i]);
      RequeuedAccounts(cfg, totals, WaitUntil(calls[i], now), keys[i], since[i], batch[i] + Aboard(calls[i], now));
    }
  }
}
