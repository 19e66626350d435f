/** Batch admission in window order, for every answer that the block manager may give. */
module PaperPlans {
  import opened Sequences
  import opened Levels
  import opened Windows

  datatype Alloc = Fits | Later | Never

  /** What the serving engine answers during one step: which groups still prefill, how many tokens a prefill has left,
      whether blocks can be had (asked once per group), and whether the decode slots fit (asked before and after
      admission). */
  datatype Answers = Answers(
    prefill: string -> bool, uncomputed: string -> nat, allocate: string -> Alloc, swapIn: string -> Alloc,
    appendBefore: string -> bool, appendAfter: string -> bool)

  /** The three queues of the native scheduler. */
  datatype Queues = Queues(running: seq<string>, waiting: seq<string>, swapped: seq<string>)

  /** Every group is in exactly one queue, once. */
  ghost predicate Partition(q: Queues, all: set<string>) {
    && NoDup(q.running) && NoDup(q.waiting) && NoDup(q.swapped)
    && (forall x :: x in q.running ==> x !in q.waiting && x !in q.swapped)
    && (forall x :: x in q.waiting ==> x !in q.swapped)
    && (forall x :: x in all <==> x in q.running || x in q.waiting || x in q.swapped)
  }

  function Evicted(q: Queues, x: string): Queues { q.(running := Without(q.running, x), swapped := q.swapped + [x]) }

  function Launched(q: Queues, x: string): Queues { q.(waiting := Without(q.waiting, x), running := q.running + [x]) }

  function SwappedIn(q: Queues, x: string): Queues { q.(swapped := Without(q.swapped, x), running := q.running + [x]) }

  /** `FINISHED_IGNORED`: the group leaves whatever queue it is in. */
  function Ignored(q: Queues, x: string): Queues {
    Queues(Without(q.running, x), Without(q.waiting, x), Without(q.swapped, x))
  }

  lemma WithoutMembers<T>(s: seq<T>, x: T)
    requires NoDup(s)
    ensures NoDup(Without(s, x)) && forall y :: y in Without(s, x) <==> y in s && y != x
  {
    WithoutIsFilter(s, x);
    FilterMembers(s, y => y != x);
  }

  lemma MovesKeepPartition(q: Queues, all: set<string>, x: string)
    requires Partition(q, all)
    ensures x in q.running ==> Partition(Evicted(q, x), all)
    ensures x in q.waiting ==> Partition(Launched(q, x), all)
    ensures x in q.swapped ==> Partition(SwappedIn(q, x), all)
    ensures Partition(Ignored(q, x), all - {x})
  {
    WithoutMembers(q.running, x);
    WithoutMembers(q.waiting, x);
    WithoutMembers(q.swapped, x);
  }

  // ---- What a step starts from ---------------------------------------------------------------

  /** One step, once its window is selected: the groups on the GPU that are prepared, the groups whose slots are
      reserved for the window, and the token budget of the engine. */
  datatype Scene = Scene(
    l: Limits, budget: nat, a: Answers, boundary: bool, w: Window, q0: Queues,
    prepared0: set<string>, reserved0: set<string>, all: set<string>)

  ghost predicate SceneOk(sc: Scene) {
    Partition(sc.q0, sc.all) && WindowOk(sc.l, sc.w) && forall x :: x in sc.w.cohort ==> x in sc.all
  }

  /** The reserve that is already prepared on the GPU only stays there. */
  function Held(sc: Scene): set<string> { sc.w.reserve * (sc.prepared0 * Members(sc.q0.running)) }

  function Outside(cohort: seq<string>): string -> bool { x => x !in cohort }

  function Outsiders(sc: Scene): seq<string> { Filter(sc.q0.running, Outside(sc.w.cohort)) }

  /** A prepared decode window goes on without admission. */
  ghost predicate Continues(sc: Scene) {
    && !sc.boundary && sc.w.cohort != []
    && forall x :: x in sc.w.cohort ==> x in sc.prepared0 && x in sc.reserved0 && x in sc.q0.running && !sc.a.prefill(x)
  }

  /** What a scheduled group brings into the batch: its prefill chunk, or one decode token. */
  function Cost(a: Answers, x: string): nat { if a.prefill(x) then a.uncomputed(x) else 1 }

  function TokensOf(a: Answers, groups: seq<string>): nat {
    if groups == [] then 0 else TokensOf(a, groups[..|groups| - 1]) + Cost(a, groups[|groups| - 1])
  }

  /** A cohort member joins the batch unless it is a resident reserve, or a reserve with nothing left to prefill. */
  function Joins(sc: Scene): string -> bool {
    x => x !in Held(sc) && !(x in sc.w.reserve && !sc.a.prefill(x))
  }

  // ---- How admission ends, in terms of the start of the step -----------------------------------

  /** The block manager's first answer, for the queue that the group is in. */
  function First(sc: Scene, x: string): Alloc {
    if x in sc.q0.waiting then sc.a.allocate(x)
    else if x in sc.q0.swapped then sc.a.swapIn(x)
    else if sc.a.appendBefore(x) then Fits else Later
  }

  /** Who joins the batch among the first `k` members of the cohort. */
  function Groups(sc: Scene, k: nat): seq<string>
    requires k <= |sc.w.cohort|
  {
    Filter(sc.w.cohort[..k], Joins(sc))
  }

  /** Who is swapped in among the first `k` members of the cohort. */
  function Arrivals(sc: Scene, k: nat): seq<string>
    requires k <= |sc.w.cohort|
  {
    Filter(sc.w.cohort[..k], Among(Members(sc.q0.swapped)))
  }

  /** Decoding groups are prepared as soon as they are swapped in. */
  function Restored(sc: Scene, k: nat): set<string>
    requires k <= |sc.w.cohort|
  {
    set x | x in sc.w.cohort[..k] && x in sc.q0.swapped && !sc.a.prefill(x)
  }

  /** `cohort[k]` takes the batch over the token budget. */
  predicate Over(sc: Scene, k: nat)
    requires k < |sc.w.cohort|
  {
    TokensOf(sc.a, Groups(sc, k)) + (if Joins(sc)(sc.w.cohort[k]) then Cost(sc.a, sc.w.cohort[k]) else 0) > sc.budget
  }

  /** A resident reserve that already has its slots is passed over. */
  predicate Passed(sc: Scene, k: nat)
    requires k < |sc.w.cohort|
  {
    sc.w.cohort[k] in Held(sc) && sc.w.cohort[k] in sc.reserved0
  }

  predicate Fitting(sc: Scene, k: nat)
    requires k < |sc.w.cohort|
  {
    !Over(sc, k) && First(sc, sc.w.cohort[k]) == Fits && sc.a.appendAfter(sc.w.cohort[k])
  }

  /** A group of lower priority than `cohort[k]` runs. */
  ghost predicate Crowded(sc: Scene, k: nat) {
    exists j :: k < j < |sc.w.cohort| && sc.w.cohort[j] in sc.q0.running
  }

  /** The victim is the running cohort member of least priority, and comes after `cohort[k]`. */
  ghost predicate LastVictim(sc: Scene, k: nat, victim: string) {
    exists j :: k < j < |sc.w.cohort| && sc.w.cohort[j] == victim && victim in sc.q0.running
             && forall i :: j < i < |sc.w.cohort| ==> sc.w.cohort[i] !in sc.q0.running
  }

  /** How far groups have moved to the GPU when admission ends at `cohort[k]`: a group that fails only the second check
      has moved. */
  function Reach(sc: Scene, k: nat): nat {
    if k < |sc.w.cohort| && !Over(sc, k) && First(sc, sc.w.cohort[k]) == Fits then k + 1 else k
  }

  datatype Verdict = Admitted | Stopped | SwappedOut(victim: string) | Barrier | Refused | NoCapacity

  /** `cohort[k]` ends admission: it is over the budget, or the block manager says no. */
  ghost predicate Halts(sc: Scene, v: Verdict, k: nat)
    requires k < |sc.w.cohort|
  {
    var first, incoming := First(sc, sc.w.cohort[k]), Arrivals(sc, Reach(sc, k));
    && !Passed(sc, k) && !Fitting(sc, k)
    && if Over(sc, k) then v == Stopped
       else if Crowded(sc, k) && incoming == [] then v.SwappedOut? && LastVictim(sc, k, v.victim)
       else if first != Fits then v == if first == Never then Refused else Stopped
       else v == if incoming != [] then Barrier else if Groups(sc, k) == [] then NoCapacity else Stopped
  }

  /** Admission ends at the first member of the cohort that does not fit. */
  ghost predicate Ends(sc: Scene, v: Verdict, k: nat) {
    && k <= |sc.w.cohort| && (forall j :: 0 <= j < k ==> Passed(sc, j) || Fitting(sc, j))
    && if k == |sc.w.cohort| then v == Admitted else Halts(sc, v, k)
  }

  function Out(v: Verdict): set<string> { if v.SwappedOut? then {v.victim} else {} }

  function Lost(sc: Scene, v: Verdict, k: nat): set<string> {
    if v == Refused && k < |sc.w.cohort| then {sc.w.cohort[k]} else {}
  }

  /** Where everybody is: the first `n` members of the cohort run, `out` was swapped out, `lost` is gone; the first `k`
      have slots. */
  ghost predicate Stands(sc: Scene, n: nat, k: nat, out: set<string>, lost: set<string>, q: Queues,
                         prepared: set<string>, reserved: set<string>) {
    && k <= n <= |sc.w.cohort| && Partition(q, sc.all - lost)
    && (forall x :: x in out ==> x in q.swapped)
    && Moved(sc, n, out + lost, q)
    && prepared == sc.prepared0 + Restored(sc, n) - out
    && reserved == sc.reserved0 + Members(sc.w.cohort[..k]) - out
  }

  ghost predicate Moved(sc: Scene, n: nat, gone: set<string>, q: Queues)
    requires n <= |sc.w.cohort|
  {
    && (forall x :: x !in gone ==> (x in q.running <==> x in sc.q0.running || x in sc.w.cohort[..n]))
    && (forall x :: x !in gone ==> (x in q.waiting <==> x in sc.q0.waiting && x !in sc.w.cohort[..n]))
    && (forall x :: x !in gone ==> (x in q.swapped <==> x in sc.q0.swapped && x !in sc.w.cohort[..n]))
  }

  // ---- Evicting what is outside the cohort -----------------------------------------------

  /** The running groups that lost their place in the cohort are swapped out, in queue order. */
  method EvictOutsiders(sc: Scene)
      returns (q: Queues, outgoing: seq<string>, prepared: set<string>, reserved: set<string>)
    requires SceneOk(sc)
    ensures outgoing == Outsiders(sc)
    ensures Stands(sc, 0, 0, Members(outgoing), {}, q, prepared, reserved)
    ensures outgoing == [] ==> q == sc.q0 && prepared == sc.prepared0 && reserved == sc.reserved0
  {
    hide Partition, WindowOk;
    q, outgoing, prepared, reserved := sc.q0, [], sc.prepared0, sc.reserved0;
    EvictStarts(sc);
    hide Evicting;
    for k := 0 to |sc.q0.running|
      invariant Evicting(sc, k, q, outgoing, prepared, reserved)
    {
      var x := sc.q0.running[k];
      EvictNext(sc, k, q, outgoing, prepared, reserved);
      if x !in sc.w.cohort {
        q := Evicted(q, x);
        outgoing := outgoing + [x];
        prepared, reserved := prepared - {x}, reserved - {x};
      }
    }
    EvictEnds(sc, q, outgoing, prepared, reserved);
  }

  ghost predicate Evicting(sc: Scene, k: nat, q: Queues, outgoing: seq<string>, prepared: set<string>,
                           reserved: set<string>) {
    && k <= |sc.q0.running| && outgoing == Filter(sc.q0.running[..k], Outside(sc.w.cohort))
    && Stands(sc, 0, 0, Members(outgoing), {}, q, prepared, reserved)
    && (outgoing == [] ==> q == sc.q0)
  }

  lemma EvictStarts(sc: Scene)
    requires SceneOk(sc)
    ensures Evicting(sc, 0, sc.q0, [], sc.prepared0, sc.reserved0)
  {
    hide Partition;
    assert sc.all - {} == sc.all;
    assert sc.prepared0 + Restored(sc, 0) - Members([]) == sc.prepared0;
    assert sc.reserved0 + Members(sc.w.cohort[..0]) - Members([]) == sc.reserved0;
  }

  lemma EvictNext(sc: Scene, k: nat, q: Queues, outgoing: seq<string>, prepared: set<string>, reserved: set<string>)
    requires Partition(sc.q0, sc.all) && k < |sc.q0.running| && Evicting(sc, k, q, outgoing, prepared, reserved)
    ensures var x := sc.q0.running[k];
      if x in sc.w.cohort then Evicting(sc, k + 1, q, outgoing, prepared, reserved)
      else Evicting(sc, k + 1, Evicted(q, x), outgoing + [x], prepared - {x}, reserved - {x})
  {
    var x := sc.q0.running[k];
    FilterMore(sc.q0.running, k, Outside(sc.w.cohort));
    if x !in sc.w.cohort {
      FilterMembers(sc.q0.running[..k], Outside(sc.w.cohort));
      assert x !in outgoing;
      SwapOut(sc, 0, 0, Members(outgoing), q, prepared, reserved, x);
      assert Members(outgoing + [x]) == Members(outgoing) + {x};
    }
  }

  lemma EvictEnds(sc: Scene, q: Queues, outgoing: seq<string>, prepared: set<string>, reserved: set<string>)
    requires Evicting(sc, |sc.q0.running|, q, outgoing, prepared, reserved)
    ensures outgoing == Outsiders(sc) && Stands(sc, 0, 0, Members(outgoing), {}, q, prepared, reserved)
    ensures outgoing == [] ==> q == sc.q0 && prepared == sc.prepared0 && reserved == sc.reserved0
  {
    hide Moved, Partition;
    TakeAll(sc.q0.running);
    if outgoing == [] {
      assert Members(outgoing) == {} && Restored(sc, 0) == {} && Members(sc.w.cohort[..0]) == {};
    }
  }

  /** A running group is swapped out. */
  lemma SwapOut(sc: Scene, n: nat, k: nat, out: set<string>, q: Queues, prepared: set<string>, reserved: set<string>,
                x: string)
    requires Stands(sc, n, k, out, {}, q, prepared, reserved) && x in q.running
    ensures Stands(sc, n, k, out + {x}, {}, Evicted(q, x), prepared - {x}, reserved - {x})
  {
    hide Restored, Partition;
    assert Partition(q, sc.all - {}) && NoDup(q.running) by { PartitionRuns(q, sc.all - {}); }
    MovesKeepPartition(q, sc.all - {}, x);
    WithoutMembers(q.running, x);
    assert out + {} == out && out + {x} + {} == out + {x};
  }

  lemma PartitionRuns(q: Queues, all: set<string>)
    requires Partition(q, all)
    ensures NoDup(q.running) && NoDup(q.waiting) && NoDup(q.swapped)
  {
  }

  lemma FilterMore<T>(s: seq<T>, k: nat, keep: T -> bool)
    requires k < |s|
    ensures Filter(s[..k + 1], keep) == if keep(s[k]) then Filter(s[..k], keep) + [s[k]] else Filter(s[..k], keep)
  {
    TakeMore(s, k);
    FilterAppend(s[..k], [s[k]], keep);
    assert Filter([s[k]], keep) == if keep(s[k]) then [s[k]] else [];
    assert Filter(s[..k], keep) + [] == Filter(s[..k], keep);
  }

  lemma TokensMore(a: Answers, groups: seq<string>, x: string)
    ensures TokensOf(a, groups + [x]) == TokensOf(a, groups) + Cost(a, x)
  {
    assert (groups + [x])[..|groups|] == groups;
  }

  // ---- Admission in cohort order -----------------------------------------------------------

  /** What the admission loop updates. */
  datatype Admission = Admission(q: Queues, reserved: set<string>, prepared: set<string>, groups: seq<string>,
    tokens: nat, incoming: seq<string>)

  /** The first `n` members of the cohort run, and the first `k` have their slots and their place in the batch. */
  ghost predicate At(sc: Scene, n: nat, k: nat, s: Admission) {
    && Stands(sc, n, k, {}, {}, s.q, s.prepared, s.reserved)
    && s.groups == Groups(sc, k) && s.tokens == TokensOf(sc.a, s.groups) && s.incoming == Arrivals(sc, n)
  }

  /** What admission leaves behind when it ends at `cohort[k]`. */
  ghost predicate Left(sc: Scene, v: Verdict, k: nat, s: Admission) {
    && k <= Reach(sc, k) <= |sc.w.cohort|
    && Stands(sc, Reach(sc, k), k, Out(v), Lost(sc, v, k), s.q, s.prepared, s.reserved)
    && s.groups == Groups(sc, k) && s.tokens == TokensOf(sc.a, s.groups) && s.incoming == Arrivals(sc, Reach(sc, k))
  }

  /** Members of the cohort behind position `k` that run. */
  function Victims(cohort: seq<string>, k: nat, running: seq<string>): seq<string>
    requires k < |cohort|
  {
    Filter(cohort[k + 1..], Among(Members(running)))
  }

  lemma {:induction false} LastOfFilter<T>(s: seq<T>, keep: T -> bool)
    requires Filter(s, keep) != []
    ensures var line := Filter(s, keep);
      exists j :: 0 <= j < |s| && s[j] == line[|line| - 1] && keep(s[j]) && forall i :: j < i < |s| ==> !keep(s[i])
  {
    var rest := Filter(s[1..], keep);
    if rest == [] {
      FilterMembers(s[1..], keep);
      forall i | 0 < i < |s| ensures !keep(s[i]) {
        assert s[i] == s[1..][i - 1];
        assert s[i] !in rest;
      }
    } else {
      LastOfFilter(s[1..], keep);
      var j :| 0 <= j < |s[1..]| && s[1..][j] == rest[|rest| - 1] && keep(s[1..][j])
        && forall i :: j < i < |s[1..]| ==> !keep(s[1..][i]);
      forall i | j + 1 < i < |s| ensures !keep(s[i]) {
        assert s[i] == s[1..][i - 1];
      }
      assert s[j + 1] == s[1..][j];
    }
  }

  /** The groups behind `cohort[k]` run exactly as at the start of the step. */
  lemma VictimsSame(sc: Scene, n: nat, k: nat, q: Queues)
    requires k < |sc.w.cohort| && n <= k + 1 && NoDup(sc.w.cohort) && Moved(sc, n, {}, q)
    ensures Victims(sc.w.cohort, k, q.running) == Victims(sc.w.cohort, k, sc.q0.running)
  {
    var behind := sc.w.cohort[k + 1..];
    forall x | x in behind ensures x in q.running <==> x in sc.q0.running {
      assert x !in sc.w.cohort[..n];
    }
    FilterSame(behind, Among(Members(q.running)), Among(Members(sc.q0.running)));
  }

  lemma VictimIsLast(sc: Scene, k: nat)
    requires k < |sc.w.cohort|
    ensures var victims := Victims(sc.w.cohort, k, sc.q0.running);
      && (victims != [] <==> Crowded(sc, k))
      && (victims != [] ==> victims[|victims| - 1] in sc.q0.running && LastVictim(sc, k, victims[|victims| - 1]))
  {
    var behind, keep := sc.w.cohort[k + 1..], Among(Members(sc.q0.running));
    var victims := Victims(sc.w.cohort, k, sc.q0.running);
    if victims != [] {
      LastOfFilter(behind, keep);
      var victim := victims[|victims| - 1];
      var j :| 0 <= j < |behind| && behind[j] == victim && keep(behind[j]) && forall i :: j < i < |behind| ==>
        !keep(behind[i]);
      assert sc.w.cohort[k + 1 + j] == victim;
      forall i | k + 1 + j < i < |sc.w.cohort| ensures sc.w.cohort[i] !in sc.q0.running {
        assert sc.w.cohort[i] == behind[i - k - 1];
      }
    } else {
      FilterMembers(behind, keep);
      forall j | k < j < |sc.w.cohort| ensures sc.w.cohort[j] !in sc.q0.running {
        assert sc.w.cohort[j] == behind[j - k - 1];
        assert sc.w.cohort[j] !in victims;
      }
    }
  }

  /** The group of lowest priority gives way; the step ends. */
  lemma GivesWay(sc: Scene, k: nat, s: Admission)
    requires SceneOk(sc) && k < |sc.w.cohort| && At(sc, Reach(sc, k), k, s) && !Over(sc, k) && !Passed(sc, k)
      && !Fitting(sc, k)
    ensures var victims := Victims(sc.w.cohort, k, s.q.running);
      && (victims != [] <==> Crowded(sc, k))
      && (victims != [] && s.incoming == [] ==>
           var victim := victims[|victims| - 1];
           && Halts(sc, SwappedOut(victim), k)
           && Left(sc, SwappedOut(victim), k,
              s.(q := Evicted(s.q, victim), reserved := s.reserved - {victim}, prepared := s.prepared - {victim})))
  {
    hide Partition, Over, Passed, Fitting, Crowded, LastVictim, Victims, Groups, Arrivals, TokensOf, First;
    VictimsSame(sc, Reach(sc, k), k, s.q);
    VictimIsLast(sc, k);
    var victims := Victims(sc.w.cohort, k, s.q.running);
    if victims != [] && s.incoming == [] {
      var victim := victims[|victims| - 1];
      SwapOut(sc, Reach(sc, k), k, {}, s.q, s.prepared, s.reserved, victim);
      assert {} + {victim} == {victim};
    }
  }

  /** The block manager will never hold this group: it leaves, and admission ends. */
  lemma RefusedLeaves(sc: Scene, k: nat, s: Admission)
    requires k < |sc.w.cohort| && At(sc, k, k, s) && Reach(sc, k) == k
    ensures Left(sc, Refused, k, s.(q := Ignored(s.q, sc.w.cohort[k])))
  {
    hide Partition, Over, First, Restored, Moved;
    var x := sc.w.cohort[k];
    MovesKeepPartition(s.q, sc.all - {}, x);
    RefusedMoves(sc, k, s.q);
    assert sc.all - {} - {x} == sc.all - {x} && {} + {x} == {x};
    assert s.prepared - {} == s.prepared && s.reserved - {} == s.reserved;
  }

  lemma RefusedMoves(sc: Scene, k: nat, q: Queues)
    requires k < |sc.w.cohort| && Partition(q, sc.all - {}) && Moved(sc, k, {} + {}, q)
    ensures Moved(sc, k, {sc.w.cohort[k]}, Ignored(q, sc.w.cohort[k]))
  {
    var x := sc.w.cohort[k];
    WithoutMembers(q.running, x);
    WithoutMembers(q.waiting, x);
    WithoutMembers(q.swapped, x);
    hide Partition;
  }

  /** The queue change that brings `x` to the GPU, if it is not there. */
  function Entered(a: Answers, s: Admission, x: string): Admission {
    if x in s.q.waiting then s.(q := Launched(s.q, x))
    else if x in s.q.swapped then
      s.(q := SwappedIn(s.q, x), prepared := if a.prefill(x) then s.prepared else s.prepared + {x},
        incoming := s.incoming + [x])
    else s
  }

  lemma EnteredKeeps(sc: Scene, k: nat, s: Admission)
    requires SceneOk(sc) && k < |sc.w.cohort| && At(sc, k, k, s)
    ensures At(sc, k + 1, k, Entered(sc.a, s, sc.w.cohort[k]))
  {
    hide Filter, TokensOf, Joins, Moved, Partition, Restored;
    var x := sc.w.cohort[k];
    InPlace(sc, k, s);
    EnteredMoves(sc, k, s);
    FilterMore(sc.w.cohort, k, Among(Members(sc.q0.swapped)));
    RestoredMore(sc, k);
    var none: set<string> := {};
    assert none + none == none;
  }

  lemma RestoredMore(sc: Scene, k: nat)
    requires k < |sc.w.cohort|
    ensures var x := sc.w.cohort[k];
      Restored(sc, k + 1) == Restored(sc, k) + if x in sc.q0.swapped && !sc.a.prefill(x) then {x} else {}
  {
    TakeMore(sc.w.cohort, k);
  }

  /** The next member of the cohort is where it was at the start. */
  lemma InPlace(sc: Scene, k: nat, s: Admission)
    requires SceneOk(sc) && k < |sc.w.cohort| && Stands(sc, k, k, {}, {}, s.q, s.prepared, s.reserved)
    ensures var x := sc.w.cohort[k];
      && x !in sc.w.cohort[..k] && (x in s.reserved <==> x in sc.reserved0) && x in sc.all
      && (x in s.q.running <==> x in sc.q0.running) && (x in s.q.waiting <==> x in sc.q0.waiting)
      && (x in s.q.swapped <==> x in sc.q0.swapped) && (x in sc.q0.waiting ==> x !in sc.q0.swapped)
  {
  }

  lemma EnteredMoves(sc: Scene, k: nat, s: Admission)
    requires SceneOk(sc) && k < |sc.w.cohort| && Stands(sc, k, k, {}, {}, s.q, s.prepared, s.reserved)
    ensures var t := Entered(sc.a, s, sc.w.cohort[k]); Partition(t.q, sc.all - {}) && Moved(sc, k + 1, {}, t.q)
  {
    var x := sc.w.cohort[k];
    InPlace(sc, k, s);
    MovesKeepPartition(s.q, sc.all - {}, x);
    if x in s.q.waiting {
      LaunchMoves(sc, k, s.q);
    } else if x in s.q.swapped {
      SwapInMoves(sc, k, s.q);
    } else {
      RunsAlready(sc, k, s.q);
    }
    hide Partition, Moved;
  }

  lemma LaunchMoves(sc: Scene, k: nat, q: Queues)
    requires k < |sc.w.cohort| && sc.w.cohort[k] in q.waiting && Partition(q, sc.all - {}) && Moved(sc, k, {}, q)
    ensures Moved(sc, k + 1, {}, Launched(q, sc.w.cohort[k]))
  {
    TakeMore(sc.w.cohort, k);
    WithoutMembers(q.waiting, sc.w.cohort[k]);
  }

  lemma SwapInMoves(sc: Scene, k: nat, q: Queues)
    requires k < |sc.w.cohort| && sc.w.cohort[k] in q.swapped && Partition(q, sc.all - {}) && Moved(sc, k, {}, q)
    ensures Moved(sc, k + 1, {}, SwappedIn(q, sc.w.cohort[k]))
  {
    TakeMore(sc.w.cohort, k);
    WithoutMembers(q.swapped, sc.w.cohort[k]);
  }

  lemma RunsAlready(sc: Scene, k: nat, q: Queues)
    requires k < |sc.w.cohort| && sc.w.cohort[k] in q.running && Partition(q, sc.all - {}) && Moved(sc, k, {}, q)
    ensures Moved(sc, k + 1, {}, q)
  {
    TakeMore(sc.w.cohort, k);
  }

  /** The group has its slots, and joins the batch if it has something to run. */
  function Seated(sc: Scene, s: Admission, x: string): Admission {
    var t := s.(reserved := s.reserved + {x});
    if Joins(sc)(x) then t.(groups := t.groups + [x], tokens := t.tokens + Cost(sc.a, x)) else t
  }

  lemma SeatedKeeps(sc: Scene, k: nat, s: Admission)
    requires k < |sc.w.cohort| && At(sc, k + 1, k, s)
    ensures At(sc, k + 1, k + 1, Seated(sc, s, sc.w.cohort[k]))
  {
    hide Partition, Filter, TokensOf, Cost, Moved, Restored;
    var x := sc.w.cohort[k];
    TakeMore(sc.w.cohort, k);
    assert Members(sc.w.cohort[..k + 1]) == Members(sc.w.cohort[..k]) + {x};
    FilterMore(sc.w.cohort, k, Joins(sc));
    TokensMore(sc.a, s.groups, x);
  }

  lemma PassedOver(sc: Scene, k: nat, s: Admission)
    requires SceneOk(sc) && k < |sc.w.cohort| && At(sc, k, k, s) && Passed(sc, k)
    ensures At(sc, k + 1, k + 1, s)
  {
    hide Filter, TokensOf;
    var x := sc.w.cohort[k];
    InPlace(sc, k, s);
    EnteredKeeps(sc, k, s);
    SeatedKeeps(sc, k, s);
    hide At;
    assert Seated(sc, s, x) == s by { assert s.reserved + {x} == s.reserved; }
  }

  /** One turn of the admission loop: the next member has its place, or admission ends here. */
  method AdmitOne(sc: Scene, chosen: set<string>, k: nat, s0: Admission)
      returns (verdict: Option<Verdict>, s: Admission)
    requires SceneOk(sc) && k < |sc.w.cohort| && At(sc, k, k, s0)
    requires chosen + Held(sc) == Members(sc.w.cohort) && chosen !! Held(sc)
    ensures verdict == None ==> (Passed(sc, k) || Fitting(sc, k)) && At(sc, k + 1, k + 1, s)
    ensures verdict.Some? ==> Halts(sc, verdict.value, k) && Left(sc, verdict.value, k, s)
  {
    hide SceneOk, At, Stands, Left, Halts, TokensOf, Victims, Groups, Arrivals, Crowded;
    var x := sc.w.cohort[k];
    s := s0;
    WhereIs(sc, k, s);
    assert x in Members(sc.w.cohort);
    if x !in chosen && x in s.reserved {
      PassedOver(sc, k, s);
      return None, s;
    }
    var count := if Joins(sc)(x) then Cost(sc.a, x) else 0;
    if s.tokens + count > sc.budget {
      StopsHere(sc, Stopped, k, s);
      return Some(Stopped), s;
    }
    var status := if x in s.q.waiting then sc.a.allocate(x) else if x in s.q.swapped then sc.a.swapIn(x)
      else if sc.a.appendBefore(x) then Fits else Later;
    if status != Fits {
      var victims := Victims(sc.w.cohort, k, s.q.running);
      GivesWay(sc, k, s);
      if victims != [] && s.incoming == [] {
        var victim := victims[|victims| - 1];
        return Some(SwappedOut(victim)),
          s.(q := Evicted(s.q, victim), reserved := s.reserved - {victim}, prepared := s.prepared - {victim});
      }
      if status == Never {
        RefusesHere(sc, k, s);
        return Some(Refused), s.(q := Ignored(s.q, x));
      }
      StopsHere(sc, Stopped, k, s);
      return Some(Stopped), s;
    }
    EnteredKeeps(sc, k, s);
    s := Entered(sc.a, s, x);
    if !sc.a.appendAfter(x) {
      var victims := Victims(sc.w.cohort, k, s.q.running);
      GivesWay(sc, k, s);
      if victims != [] && s.incoming == [] {
        var victim := victims[|victims| - 1];
        return Some(SwappedOut(victim)),
          s.(q := Evicted(s.q, victim), reserved := s.reserved - {victim}, prepared := s.prepared - {victim});
      }
      verdict := Some(if s.incoming != [] then Barrier else if s.groups == [] then NoCapacity else Stopped);
      StopsHere(sc, verdict.value, k, s);
      return;
    }
    SeatedKeeps(sc, k, s);
    s := Seated(sc, s, x);
    verdict := None;
  }

  lemma WhereIs(sc: Scene, k: nat, s: Admission)
    requires SceneOk(sc) && k < |sc.w.cohort| && At(sc, k, k, s)
    ensures var x := sc.w.cohort[k];
      && (x in s.reserved <==> x in sc.reserved0) && (x in s.q.waiting <==> x in sc.q0.waiting)
      && (x in s.q.swapped <==> x in sc.q0.swapped)
      && s.groups == Groups(sc, k) && s.tokens == TokensOf(sc.a, Groups(sc, k))
  {
    InPlace(sc, k, s);
  }

  lemma StopsHere(sc: Scene, v: Verdict, k: nat, s: Admission)
    requires k < |sc.w.cohort| && At(sc, Reach(sc, k), k, s) && !Passed(sc, k) && !Fitting(sc, k)
    requires Over(sc, k) ==> v == Stopped
    requires !Over(sc, k) ==> !(Crowded(sc, k) && s.incoming == []) && First(sc, sc.w.cohort[k]) != Never
    requires !Over(sc, k) && First(sc, sc.w.cohort[k]) == Later ==> v == Stopped
    requires !Over(sc, k) && First(sc, sc.w.cohort[k]) == Fits ==>
      v == if s.incoming != [] then Barrier else if s.groups == [] then NoCapacity else Stopped
    ensures Halts(sc, v, k) && Left(sc, v, k, s)
  {
    hide Partition, Moved, Crowded, TokensOf, Over, Passed, Fitting, Restored;
    assert s.prepared - {} == s.prepared && s.reserved - {} == s.reserved;
  }

  lemma RefusesHere(sc: Scene, k: nat, s: Admission)
    requires k < |sc.w.cohort| && At(sc, k, k, s) && !Passed(sc, k) && !Over(sc, k)
    requires First(sc, sc.w.cohort[k]) == Never && !(Crowded(sc, k) && s.incoming == [])
    ensures Halts(sc, Refused, k) && Left(sc, Refused, k, s.(q := Ignored(s.q, sc.w.cohort[k])))
  {
    RefusedLeaves(sc, k, s);
    hide Stands, Left, Crowded, TokensOf, Over, Passed;
  }

  /** The admission loop ends at the end of the cohort, or at the first group that does not fit. */
  method Admit(sc: Scene, chosen: set<string>) returns (verdict: Verdict, k: nat, s: Admission)
    requires SceneOk(sc) && chosen + Held(sc) == Members(sc.w.cohort) && chosen !! Held(sc)
    ensures Ends(sc, verdict, k) && Left(sc, verdict, k, s)
  {
    hide SceneOk, At, Passed, Fitting, Halts, Left, Held;
    s, k := Admission(sc.q0, sc.reserved0, sc.prepared0, [], 0, []), 0;
    AdmissionStarts(sc);
    while k < |sc.w.cohort|
      invariant k <= |sc.w.cohort| && At(sc, k, k, s)
      invariant forall j :: 0 <= j < k ==> Passed(sc, j) || Fitting(sc, j)
    {
      var end, t := AdmitOne(sc, chosen, k, s);
      if end.Some? {
        return end.value, k, t;
      }
      s, k := t, k + 1;
    }
    verdict := Admitted;
    WholeCohort(sc, s);
  }

  lemma AdmissionStarts(sc: Scene)
    requires SceneOk(sc)
    ensures At(sc, 0, 0, Admission(sc.q0, sc.reserved0, sc.prepared0, [], 0, []))
  {
    EvictStarts(sc);
    hide Partition, Moved;
    assert Members([]) == {};
  }

  lemma WholeCohort(sc: Scene, s: Admission)
    requires At(sc, |sc.w.cohort|, |sc.w.cohort|, s)
    ensures Left(sc, Admitted, |sc.w.cohort|, s)
  {
    hide Partition, Moved, TokensOf;
  }

  // ---- The batch ---------------------------------------------------------------------------

  function IsPrefill(a: Answers): string -> bool { x => a.prefill(x) }

  function IsDecode(a: Answers): string -> bool { x => !a.prefill(x) }

  /** Prefills come before decodes, each in cohort order. */
  function Ordered(a: Answers, groups: seq<string>): seq<string> {
    Filter(groups, IsPrefill(a)) + Filter(groups, IsDecode(a))
  }

  lemma {:induction false} TokensAppend(a: Answers, s: seq<string>, t: seq<string>)
    ensures TokensOf(a, s + t) == TokensOf(a, s) + TokensOf(a, t)
    decreases |t|
  {
    if t == [] {
      assert s + t == s;
    } else {
      TokensAppend(a, s, t[..|t| - 1]);
      assert (s + t)[..|s + t| - 1] == s + t[..|t| - 1];
    }
  }

  lemma {:induction false} OrderedTokens(a: Answers, groups: seq<string>)
    ensures TokensOf(a, Ordered(a, groups)) == TokensOf(a, groups)
  {
    if groups != [] {
      var front, x := groups[..|groups| - 1], groups[|groups| - 1];
      OrderedTokens(a, front);
      assert groups == front + [x];
      FilterAppend(front, [x], IsPrefill(a));
      FilterAppend(front, [x], IsDecode(a));
      TokensSplit(a, front, x);
    }
  }

  lemma OrderedMembers(a: Answers, groups: seq<string>)
    ensures forall x :: x in Ordered(a, groups) <==> x in groups
    ensures NoDup(groups) ==> NoDup(Ordered(a, groups))
  {
    hide Filter;
    var p, d := Filter(groups, IsPrefill(a)), Filter(groups, IsDecode(a));
    FilterMembers(groups, IsPrefill(a));
    FilterMembers(groups, IsDecode(a));
    forall i, j | 0 <= i < |p| && 0 <= j < |d| ensures p[i] != d[j] {
      assert p[i] in p && d[j] in d;
    }
  }

  lemma TokensSplit(a: Answers, front: seq<string>, x: string)
    requires TokensOf(a, Ordered(a, front)) == TokensOf(a, front)
    ensures TokensOf(a, Filter(front, IsPrefill(a)) + Filter([x], IsPrefill(a))
      + (Filter(front, IsDecode(a)) + Filter([x], IsDecode(a)))) == TokensOf(a, front + [x])
  {
    var p, d := Filter(front, IsPrefill(a)), Filter(front, IsDecode(a));
    TokensAppend(a, p, d);
    TokensAppend(a, front, [x]);
    TokensAppend(a, p, Filter([x], IsPrefill(a)));
    TokensAppend(a, d, Filter([x], IsDecode(a)));
    TokensAppend(a, p + Filter([x], IsPrefill(a)), d + Filter([x], IsDecode(a)));
    assert Filter([x], IsPrefill(a)) == (if a.prefill(x) then [x] else [])
      && Filter([x], IsDecode(a)) == if a.prefill(x) then [] else [x];
  }

  lemma InReserve(l: Limits, cohort: seq<string>, i: nat)
    requires NoDup(cohort) && i < |cohort|
    ensures cohort[i] in Members(Tail(l, cohort)) <==> i >= l.capacity
  {
    Parts(l, cohort);
    if i >= l.capacity {
      assert Tail(l, cohort)[i - l.capacity] == cohort[i];
    } else {
      assert Head(l, cohort)[i] == cohort[i];
    }
  }

  datatype Batch = Batch(scheduled: seq<string>, incoming: seq<string>, outgoing: seq<string>, ignored: seq<string>)

  datatype Result = Planned(batch: Batch) | NoWindowCapacity | NothingFits

  function Ignores(sc: Scene, v: Verdict, k: nat): seq<string> {
    if v == Refused && k < |sc.w.cohort| then [sc.w.cohort[k]] else []
  }

  /** What the step returns when admission ends with `v` at `cohort[k]`. */
  function Outcome(sc: Scene, v: Verdict, k: nat): Result
    requires k <= |sc.w.cohort| && Reach(sc, k) <= |sc.w.cohort|
  {
    var groups, incoming, ignored := Groups(sc, k), Arrivals(sc, Reach(sc, k)), Ignores(sc, v, k);
    match v
    case SwappedOut(victim) => Planned(Batch([], [], [victim], []))
    case Barrier => Planned(Batch([], incoming, [], []))
    case NoCapacity => NoWindowCapacity
    case _ =>
      if groups == [] && incoming == [] && ignored == [] && sc.all != {} then NothingFits
      else Planned(Batch(Ordered(sc.a, groups), incoming, [], ignored))
  }

  /** The cohort is cut before the first group that did not fit, if anyone joined. */
  function CutAt(sc: Scene, v: Verdict, k: nat): Window
    requires k <= |sc.w.cohort|
  {
    if v in {Stopped, Refused} && Groups(sc, k) != [] then Retained(sc.l, sc.w, k) else sc.w
  }

  /** The planner after a step. */
  datatype Plan = Plan(w: Window, q: Queues, prepared: set<string>, reserved: set<string>)

  /** Who is prepared by the step: who it executes. */
  function Ran(r: Result): set<string> { if r.Planned? then Members(r.batch.scheduled) else {} }

  ghost predicate Leaves(sc: Scene, n: nat, k: nat, out: set<string>, lost: set<string>, r: Result, p: Plan) {
    exists prepared :: Stands(sc, n, k, out, lost, p.q, prepared, p.reserved) && p.prepared == prepared + Ran(r)
  }

  ghost predicate Concludes(sc: Scene, v: Verdict, k: nat, r: Result, p: Plan) {
    && Ends(sc, v, k) && Reach(sc, k) <= |sc.w.cohort|
    && r == Outcome(sc, v, k) && p.w == CutAt(sc, v, k)
    && Leaves(sc, Reach(sc, k), k, Out(v), Lost(sc, v, k), r, p)
  }

  /** The whole step, for every answer of the block manager: outsiders leave first; a prepared decode window goes on;
      otherwise admission decides. */
  ghost predicate Steps(sc: Scene, r: Result, p: Plan) {
    if Outsiders(sc) != [] then
      r == Planned(Batch([], [], Outsiders(sc), [])) && p.w == sc.w
        && Leaves(sc, 0, 0, Members(Outsiders(sc)), {}, r, p)
    else if Continues(sc) then
      && r == Planned(Batch(Ordered(sc.a, Filter(sc.w.cohort, Among(sc.w.active))), [], [], []))
      && p.w == sc.w && Leaves(sc, 0, 0, {}, {}, r, p)
    else
      exists v, k :: Concludes(sc, v, k, r, p)
  }

  /** `retain_prefix` is called or not. */
  function CutBy(sc: Scene, keep: Option<nat>): Window { if keep.None? then sc.w else Retained(sc.l, sc.w, keep.value) }

  /** `next_step` once the window is selected; `keep` is the prefix of the cohort to retain. */
  method Materialize(sc: Scene, chosen: set<string>)
      returns (r: Result, q: Queues, prepared: set<string>, reserved: set<string>, keep: Option<nat>)
    requires SceneOk(sc) && chosen + Held(sc) == Members(sc.w.cohort) && chosen !! Held(sc)
    ensures Steps(sc, r, Plan(CutBy(sc, keep), q, prepared, reserved))
  {
    hide SceneOk, Partition, Stands, Steps, Concludes, Ends, Left, Ordered, Filter, Held, Groups;
    var w, outgoing := sc.w, [];
    keep := None;
    q, outgoing, prepared, reserved := EvictOutsiders(sc);
    if outgoing != [] {
      r := Planned(Batch([], [], outgoing, []));
      StepOut(sc, r, q, prepared, reserved);
      return;
    }
    if !sc.boundary && w.cohort != [] && forall x :: x in w.cohort ==>
      x in prepared && x in reserved && x in q.running && !sc.a.prefill(x) {
      r := Planned(Batch(Ordered(sc.a, Filter(w.cohort, Among(w.active))), [], [], []));
      assert Members(outgoing) == {};
      StepOn(sc, r, q, prepared, reserved);
      return;
    }
    var verdict, k, s := Admit(sc, chosen);
    q, prepared, reserved := s.q, s.prepared, s.reserved;
    EndsInCohort(sc, verdict, k);
    LeftIs(sc, verdict, k, s);
    if verdict == NoCapacity {
      r := NoWindowCapacity;
    } else if verdict.SwappedOut? {
      r := Planned(Batch([], [], [verdict.victim], []));
    } else if verdict == Barrier {
      r := Planned(Batch([], s.incoming, [], []));
    } else {
      keep := if s.groups == [] || verdict == Admitted then None else Some(k);
      var ignored := if verdict == Refused then [w.cohort[k]] else [];
      if s.groups == [] && s.incoming == [] && ignored == [] && sc.all != {} {
        r := NothingFits;
      } else {
        prepared := prepared + Members(s.groups);
        r := Planned(Batch(Ordered(sc.a, s.groups), s.incoming, [], ignored));
      }
    }
    StepAdmits(sc, verdict, k, s, r, Plan(CutBy(sc, keep), q, prepared, reserved));
  }

  lemma StepOut(sc: Scene, r: Result, q: Queues, prepared: set<string>, reserved: set<string>)
    requires Outsiders(sc) != [] && Stands(sc, 0, 0, Members(Outsiders(sc)), {}, q, prepared, reserved)
    requires r == Planned(Batch([], [], Outsiders(sc), []))
    ensures Steps(sc, r, Plan(sc.w, q, prepared, reserved))
  {
    hide Stands;
    assert prepared == prepared + Ran(r);
  }

  lemma StepOn(sc: Scene, r: Result, q: Queues, prepared: set<string>, reserved: set<string>)
    requires Outsiders(sc) == [] && Continues(sc) && Stands(sc, 0, 0, {}, {}, q, prepared, reserved)
    requires prepared == sc.prepared0
    requires r == Planned(Batch(Ordered(sc.a, Filter(sc.w.cohort, Among(sc.w.active))), [], [], []))
    ensures Steps(sc, r, Plan(sc.w, q, prepared, reserved))
  {
    hide Stands, Ordered;
    FilterMembers(sc.w.cohort, Among(sc.w.active));
    OrderedMembers(sc.a, Filter(sc.w.cohort, Among(sc.w.active)));
    assert prepared == prepared + Ran(r);
  }

  lemma StepAdmits(sc: Scene, v: Verdict, k: nat, s: Admission, r: Result, p: Plan)
    requires Outsiders(sc) == [] && !Continues(sc) && Ends(sc, v, k) && Left(sc, v, k, s)
    requires r == Outcome(sc, v, k) && p.w == CutAt(sc, v, k) && p.q == s.q && p.reserved == s.reserved
    requires p.prepared == if v in {Admitted, Stopped, Refused} && r.Planned? then s.prepared + Members(s.groups)
      else s.prepared
    ensures Steps(sc, r, p)
  {
    hide Ends, Stands, Ordered, Groups, Arrivals;
    OrderedMembers(sc.a, Groups(sc, k));
    assert p.prepared == s.prepared + Ran(r) by {
      assert r.Planned? && v in {Admitted, Stopped, Refused} ==> Members(r.batch.scheduled) == Members(s.groups);
    }
    assert Concludes(sc, v, k, r, p);
  }

  // ---- What every step keeps ---------------------------------------------------------------

  ghost predicate Progress(b: Batch) { b.scheduled != [] || b.incoming != [] || b.outgoing != [] || b.ignored != [] }

  /** A batch that swaps out does nothing else. A batch that executes has served the whole (cut) cohort: nobody ran past
      a group of higher priority that did not fit. */
  ghost predicate Safe(sc: Scene, b: Batch, p: Plan) {
    && Partition(p.q, sc.all - Members(b.ignored))
    && (b.outgoing != [] ==> b.scheduled == [] && b.incoming == [] && b.ignored == [])
    && (forall x :: x in b.outgoing ==> x in p.q.swapped && x !in p.prepared && x !in p.reserved)
    && (forall x :: x in b.incoming ==> x in p.q.running)
    && (forall x :: x in b.scheduled ==> x in p.prepared)
    && (b.scheduled != [] ==> b.scheduled == Ordered(sc.a, Filter(p.w.cohort, Joins(sc))))
    && (b.scheduled != [] ==> forall x :: x in p.w.cohort ==> x in p.reserved && x in p.q.running)
  }

  /** A raise leaves the queues a partition, too. */
  lemma StepIsSafe(sc: Scene, r: Result, p: Plan)
    requires SceneOk(sc) && Steps(sc, r, p)
    ensures WindowOk(sc.l, p.w) && p.w.cohort <= sc.w.cohort && p.w.remaining == sc.w.remaining
    ensures r.Planned? ==> Safe(sc, r.batch, p)
    ensures !r.Planned? ==> Partition(p.q, sc.all) && sc.all != {}
    ensures r.Planned? && sc.w.cohort != [] && sc.l.capacity > 0 ==> Progress(r.batch)
    ensures r.Planned? ==> forall i, j ::
      0 <= i < j < |r.batch.scheduled| && sc.a.prefill(r.batch.scheduled[j]) ==> sc.a.prefill(r.batch.scheduled[i])
    ensures r.Planned? ==> forall i, j ::
      0 <= i < j < |r.batch.scheduled| && sc.a.prefill(r.batch.scheduled[i]) == sc.a.prefill(r.batch.scheduled[j]) ==>
        Precedes(p.w.cohort, r.batch.scheduled[i], r.batch.scheduled[j])
  {
    hide Steps, Safe, Progress, Partition, WindowOk, Precedes;
    if r.Planned? {
      SafeStep(sc, r, p);
      SafeIsOrdered(sc, r.batch, p);
    } else {
      SafeStep(sc, r, p);
    }
  }

  /** Prefills come before decodes, and two of a kind stand in the order of the cohort. */
  lemma SafeIsOrdered(sc: Scene, b: Batch, p: Plan)
    requires Safe(sc, b, p)
    ensures forall i, j :: 0 <= i < j < |b.scheduled| && sc.a.prefill(b.scheduled[j]) ==> sc.a.prefill(b.scheduled[i])
    ensures forall i, j ::
      0 <= i < j < |b.scheduled| && sc.a.prefill(b.scheduled[i]) == sc.a.prefill(b.scheduled[j]) ==>
        Precedes(p.w.cohort, b.scheduled[i], b.scheduled[j])
  {
    hide Partition, Filter, Precedes, Ordered;
    if b.scheduled != [] {
      OrderedKinds(sc.a, p.w.cohort, Joins(sc), b.scheduled);
    }
  }

  lemma OrderedKinds(a: Answers, cohort: seq<string>, joins: string -> bool, s: seq<string>)
    requires s == Ordered(a, Filter(cohort, joins))
    ensures forall i, j :: 0 <= i < j < |s| && a.prefill(s[j]) ==> a.prefill(s[i])
    ensures forall i, j :: 0 <= i < j < |s| && a.prefill(s[i]) == a.prefill(s[j]) ==> Precedes(cohort, s[i], s[j])
  {
    hide Filter, Precedes;
    var groups := Filter(cohort, joins);
    var first, last := Filter(groups, IsPrefill(a)), Filter(groups, IsDecode(a));
    FilterMembers(groups, IsPrefill(a));
    FilterMembers(groups, IsDecode(a));
    assert forall i :: 0 <= i < |first| ==> first[i] in first && a.prefill(first[i]);
    assert forall i :: 0 <= i < |last| ==> last[i] in last && !a.prefill(last[i]);
    forall i, j | 0 <= i < j < |first| ensures Precedes(cohort, first[i], first[j]) {
      FilterTwicePrecedes(cohort, joins, IsPrefill(a), i, j);
    }
    forall i, j | 0 <= i < j < |last| ensures Precedes(cohort, last[i], last[j]) {
      FilterTwicePrecedes(cohort, joins, IsDecode(a), i, j);
    }
  }

  lemma FilterTwicePrecedes(cohort: seq<string>, joins: string -> bool, kind: string -> bool, i: nat, j: nat)
    requires i < j < |Filter(Filter(cohort, joins), kind)|
    ensures var s := Filter(Filter(cohort, joins), kind); Precedes(cohort, s[i], s[j])
  {
    hide Filter, Precedes;
    FilterBoth(cohort, joins, kind, x => joins(x) && kind(x));
    FilterPrecedes(cohort, x => joins(x) && kind(x), i, j);
  }

  lemma SafeStep(sc: Scene, r: Result, p: Plan)
    requires SceneOk(sc) && Steps(sc, r, p)
    ensures WindowOk(sc.l, p.w) && p.w.cohort <= sc.w.cohort && p.w.remaining == sc.w.remaining
    ensures r.Planned? ==> Safe(sc, r.batch, p)
    ensures !r.Planned? ==> Partition(p.q, sc.all) && sc.all != {}
    ensures r.Planned? && sc.w.cohort != [] && sc.l.capacity > 0 ==> Progress(r.batch)
  {
    hide Steps, Safe, Progress, Partition, WindowOk;
    if Outsiders(sc) != [] {
      OutIsSafe(sc, r, p);
    } else if Continues(sc) {
      OnIsSafe(sc, r, p);
    } else {
      assert exists v, k :: Concludes(sc, v, k, r, p) by { AdmissionDecides(sc, r, p); }
      var v, k :| Concludes(sc, v, k, r, p);
      AdmissionIsSafe(sc, v, k, r, p);
    }
  }

  lemma AdmissionDecides(sc: Scene, r: Result, p: Plan)
    requires Steps(sc, r, p) && Outsiders(sc) == [] && !Continues(sc)
    ensures exists v, k :: Concludes(sc, v, k, r, p)
  {
    hide Concludes;
  }

  lemma OutIsSafe(sc: Scene, r: Result, p: Plan)
    requires SceneOk(sc) && Outsiders(sc) != [] && Steps(sc, r, p)
    ensures r.Planned? && Safe(sc, r.batch, p) && Progress(r.batch) && p.w == sc.w && WindowOk(sc.l, p.w)
  {
    hide Moved, Partition, Outsiders, WindowOk;
    assert sc.all - {} == sc.all - Members([]);
  }

  lemma OnIsSafe(sc: Scene, r: Result, p: Plan)
    requires SceneOk(sc) && Outsiders(sc) == [] && Continues(sc) && Steps(sc, r, p)
    ensures r.Planned? && Safe(sc, r.batch, p) && p.w == sc.w && WindowOk(sc.l, p.w)
    ensures sc.l.capacity > 0 ==> Progress(r.batch)
  {
    hide Partition, Outsiders, Ordered, Filter, TokensOf;
    FastPath(sc);
    assert sc.all - {} == sc.all - Members([]);
    hide WindowOk;
  }

  /** Inside a prepared decode window, the active groups are exactly those that join. */
  lemma FastPath(sc: Scene)
    requires SceneOk(sc) && Continues(sc)
    ensures Filter(sc.w.cohort, Among(sc.w.active)) == Filter(sc.w.cohort, Joins(sc))
    ensures sc.l.capacity > 0 ==> Ordered(sc.a, Filter(sc.w.cohort, Joins(sc))) != []
  {
    hide Ordered, Partition;
    Parts(sc.l, sc.w.cohort);
    forall x | x in sc.w.cohort ensures Among(sc.w.active)(x) <==> Joins(sc)(x) {
      assert x in Members(sc.w.cohort);
    }
    FilterSame(sc.w.cohort, Among(sc.w.active), Joins(sc));
    FilterMembers(sc.w.cohort, Joins(sc));
    OrderedMembers(sc.a, Filter(sc.w.cohort, Joins(sc)));
    if sc.l.capacity > 0 {
      ActiveJoins(sc, 0);
      assert sc.w.cohort[0] in sc.w.cohort;
      assert sc.w.cohort[0] in Ordered(sc.a, Filter(sc.w.cohort, Joins(sc)));
    }
  }

  /** The first members of the cohort are active, so they are never passed over and always join. */
  lemma ActiveJoins(sc: Scene, i: nat)
    requires WindowOk(sc.l, sc.w) && i < |sc.w.cohort| && i < sc.l.capacity
    ensures Joins(sc)(sc.w.cohort[i]) && !Passed(sc, i)
  {
    var x := sc.w.cohort[i];
    InReserve(sc.l, sc.w.cohort, i);
    hide WindowOk, Tail;
    assert x !in sc.w.reserve && x !in Held(sc);
  }

  lemma AdmissionIsSafe(sc: Scene, v: Verdict, k: nat, r: Result, p: Plan)
    requires SceneOk(sc) && Concludes(sc, v, k, r, p)
    ensures WindowOk(sc.l, p.w) && p.w.cohort <= sc.w.cohort && p.w.remaining == sc.w.remaining
    ensures r.Planned? ==> Safe(sc, r.batch, p) && (sc.w.cohort != [] ==> Progress(r.batch))
    ensures !r.Planned? ==> Partition(p.q, sc.all) && sc.all != {}
  {
    hide Partition, Moved, Ends, Halts, Ordered, TokensOf, Filter, Over, First, Passed, Fitting;
    TruncateKeeps(sc.l, sc.w, k, true);
    assert sc.all - {} == sc.all - Members([]) == sc.all;
    EndsInCohort(sc, v, k);
    EmptyOrMember(sc.w.cohort);
    if r.Planned? && sc.w.cohort != [] {
      BatchProgresses(sc, v, k, r);
    }
    BatchIsSafe(sc, v, k, r, p);
  }

  lemma LeftIs(sc: Scene, v: Verdict, k: nat, s: Admission)
    requires Left(sc, v, k, s)
    ensures k <= Reach(sc, k) <= |sc.w.cohort| && s.groups == Groups(sc, k) && s.incoming == Arrivals(sc, Reach(sc, k))
  {
  }

  lemma EndsInCohort(sc: Scene, v: Verdict, k: nat)
    requires Ends(sc, v, k)
    ensures k <= |sc.w.cohort| && (v == Admitted <==> k == |sc.w.cohort|)
    ensures v == Barrier ==> Arrivals(sc, Reach(sc, k)) != []
    ensures v == NoCapacity ==> sc.w.cohort != [] && Groups(sc, k) == []
    ensures v in {Stopped, Refused} && Groups(sc, k) != [] ==> Reach(sc, k) <= k + 1
  {
  }

  lemma BatchIsSafe(sc: Scene, v: Verdict, k: nat, r: Result, p: Plan)
    requires SceneOk(sc) && Concludes(sc, v, k, r, p)
    ensures r.Planned? ==> Safe(sc, r.batch, p)
  {
    hide Partition, Moved, Ordered, TokensOf, Over, First, Passed, Fitting, Restored, Joins;
    EndsInCohort(sc, v, k);
    assert sc.all - {} == sc.all - Members([]) == sc.all;
    hide Ends;
    if v.SwappedOut? {
      hide Groups, Arrivals;
    } else if v == Barrier {
      ArrivalsRun(sc, Reach(sc, k), p.q, {} + {});
      hide Groups, Arrivals, Reach;
    } else if r.Planned? {
      ScheduledIsSafe(sc, v, k, r, p);
    }
  }

  lemma BatchProgresses(sc: Scene, v: Verdict, k: nat, r: Result)
    requires Ends(sc, v, k) && k <= |sc.w.cohort| && Reach(sc, k) <= |sc.w.cohort| && r == Outcome(sc, v, k)
      && r.Planned? && sc.all != {}
    ensures Progress(r.batch)
  {
    hide Groups, Arrivals, Reach, Ordered;
    OrderedMembers(sc.a, Groups(sc, k));
    EndsInCohort(sc, v, k);
    EmptyOrMember(Groups(sc, k));
    hide Ends;
  }

  lemma ArrivalsRun(sc: Scene, n: nat, q: Queues, gone: set<string>)
    requires n <= |sc.w.cohort| && Moved(sc, n, gone, q)
    ensures forall x :: x in Arrivals(sc, n) ==> x in sc.w.cohort[..n] && (x !in gone ==> x in q.running)
  {
    FilterMembers(sc.w.cohort[..n], Among(Members(sc.q0.swapped)));
  }

  lemma CutCohort(sc: Scene, v: Verdict, k: nat)
    requires Ends(sc, v, k) && v in {Admitted, Stopped, Refused} && Groups(sc, k) != []
    ensures CutAt(sc, v, k).cohort == sc.w.cohort[..k] && Groups(sc, k) == Filter(CutAt(sc, v, k).cohort, Joins(sc))
  {
    TakeAll(sc.w.cohort);
  }

  lemma LostIsIgnored(sc: Scene, v: Verdict, k: nat)
    requires Ends(sc, v, k) && NoDup(sc.w.cohort) && v in {Admitted, Stopped, Refused}
    ensures Out(v) == {} && Lost(sc, v, k) == Members(Ignores(sc, v, k))
    ensures forall x :: x in sc.w.cohort[..k] ==> x !in Lost(sc, v, k)
    ensures v == Refused ==> Reach(sc, k) == k
    ensures v != Refused ==> Lost(sc, v, k) == {}
  {
  }

  lemma ScheduledIsSafe(sc: Scene, v: Verdict, k: nat, r: Result, p: Plan)
    requires SceneOk(sc) && Concludes(sc, v, k, r, p) && r.Planned? && v in {Admitted, Stopped, Refused}
    ensures Safe(sc, r.batch, p)
  {
    hide Partition, Ordered, TokensOf, Restored, Reach, Ends, Lost, Groups, Arrivals, Ignores, CutAt, Joins;
    assert r.batch == Batch(Ordered(sc.a, Groups(sc, k)), Arrivals(sc, Reach(sc, k)), [], Ignores(sc, v, k));
    LostIsIgnored(sc, v, k);
    ArrivalsRun(sc, Reach(sc, k), p.q, Out(v) + Lost(sc, v, k));
    OrderedMembers(sc.a, Groups(sc, k));
    OrderedNone(sc.a);
    if Groups(sc, k) != [] {
      CutCohort(sc, v, k);
    }
  }

  lemma OrderedNone(a: Answers)
    ensures Ordered(a, []) == []
  {
  }

  /** Decoding groups are active, so there are at most `capacity` of them. */
  lemma DecodesAreActive(sc: Scene, r: Result, p: Plan)
    requires SceneOk(sc) && Steps(sc, r, p) && r.Planned?
    ensures forall x :: x in r.batch.scheduled ==>
      x in p.w.cohort && x in p.q.running && (!sc.a.prefill(x) ==> x in p.w.active)
    ensures |Filter(r.batch.scheduled, IsDecode(sc.a))| <= sc.l.capacity
  {
    hide Steps, Partition, Ordered, TokensOf, Joins;
    StepIsSafe(sc, r, p);
    var scheduled := r.batch.scheduled;
    FilterMembers(p.w.cohort, Joins(sc));
    OrderedMembers(sc.a, Filter(p.w.cohort, Joins(sc)));
    FilterMembers(scheduled, IsDecode(sc.a));
    forall x | x in scheduled ensures x in p.w.cohort && x in p.q.running && (!sc.a.prefill(x) ==> x in p.w.active) {
      if !sc.a.prefill(x) {
        DecodeIsActive(sc, p.w, x);
      }
    }
    if scheduled != [] {
      Parts(sc.l, p.w.cohort);
      NoDupSubLength(Filter(scheduled, IsDecode(sc.a)), Head(sc.l, p.w.cohort));
    }
  }

  lemma DecodeIsActive(sc: Scene, w: Window, x: string)
    requires WindowOk(sc.l, sc.w) && WindowOk(sc.l, w) && w.cohort <= sc.w.cohort
    requires x in w.cohort && Joins(sc)(x) && !sc.a.prefill(x)
    ensures x in w.active && x in Head(sc.l, w.cohort)
  {
    var i :| 0 <= i < |w.cohort| && w.cohort[i] == x;
    InReserve(sc.l, sc.w.cohort, i);
    InReserve(sc.l, w.cohort, i);
    Parts(sc.l, w.cohort);
    assert x in Members(w.cohort);
  }

  /** The block manager, not the token budget, keeps `cohort[k]` out, and everyone before it fits. */
  ghost predicate Blocked(sc: Scene, k: nat) {
    && k < |sc.w.cohort| && (forall j :: 0 <= j < k ==> Passed(sc, j) || Fitting(sc, j))
    && !Passed(sc, k) && !Over(sc, k) && !Fitting(sc, k)
  }

  /** Who is swapped out: everyone outside the cohort; or one group, the running cohort member of least priority, behind
      a group for which the block manager has no room. */
  lemma WhoGoesOut(sc: Scene, r: Result, p: Plan)
    requires Steps(sc, r, p) && r.Planned? && r.batch.outgoing != Outsiders(sc)
    ensures Outsiders(sc) == []
    ensures exists k, victim :: r.batch.outgoing == [victim] && Blocked(sc, k) && LastVictim(sc, k, victim)
  {
    hide Stands, TokensOf, Filter, Over, Passed, Fitting, LastVictim, Crowded;
    AdmissionDecides(sc, r, p);
    var v, k :| Concludes(sc, v, k, r, p);
    assert Blocked(sc, k) && LastVictim(sc, k, v.victim);
  }

  /** Admission ends in one way only. */
  lemma EndsOnce(sc: Scene, v: Verdict, k: nat, v': Verdict, k': nat)
    requires SceneOk(sc) && Ends(sc, v, k) && Ends(sc, v', k')
    ensures k == k' && v == v'
  {
    hide TokensOf, Groups, Arrivals, Over, First, Fitting, Passed, Partition;
    if k == k' && v.SwappedOut? {
      var j :| k < j < |sc.w.cohort| && sc.w.cohort[j] == v.victim && v.victim in sc.q0.running
               && forall i :: j < i < |sc.w.cohort| ==> sc.w.cohort[i] !in sc.q0.running;
    }
  }

  /** The request of highest priority alone has no place: its own tokens exceed the budget, or nothing of lower priority
      can make room for it. */
  ghost predicate HeadCannotFit(sc: Scene)
    requires sc.w.cohort != []
  {
    var x := sc.w.cohort[0];
    Cost(sc.a, x) > sc.budget || (First(sc, x) == Later && !Crowded(sc, 0))
  }

  /** The request of highest priority fits now, and alone, but not for the rest of the window. */
  ghost predicate HeadCannotStay(sc: Scene)
    requires sc.w.cohort != []
  {
    var x := sc.w.cohort[0];
    Cost(sc.a, x) <= sc.budget && First(sc, x) == Fits && !sc.a.appendAfter(x) && !Crowded(sc, 0) && x !in sc.q0.swapped
  }

  /** The step raises exactly when admission has to start and the request of highest priority has no place. */
  lemma RaisesAtHead(sc: Scene, r: Result, p: Plan)
    requires SceneOk(sc) && sc.w.cohort != [] && sc.l.capacity > 0 && Steps(sc, r, p)
    ensures r == NothingFits <==> Outsiders(sc) == [] && !Continues(sc) && HeadCannotFit(sc)
    ensures r == NoWindowCapacity <==> Outsiders(sc) == [] && !Continues(sc) && HeadCannotStay(sc)
  {
    hide Steps, Concludes, Continues, HeadCannotFit, HeadCannotStay, Partition, WindowOk;
    if Outsiders(sc) == [] && !Continues(sc) {
      AdmissionDecides(sc, r, p);
      var v, k :| Concludes(sc, v, k, r, p);
      AdmissionRaises(sc, v, k, r, p);
    } else {
      NoRaise(sc, r, p);
    }
  }

  lemma NoRaise(sc: Scene, r: Result, p: Plan)
    requires Steps(sc, r, p) && (Outsiders(sc) != [] || Continues(sc))
    ensures r.Planned?
  {
    hide Continues, Leaves, Outsiders;
  }

  lemma AdmissionRaises(sc: Scene, v: Verdict, k: nat, r: Result, p: Plan)
    requires SceneOk(sc) && sc.w.cohort != [] && sc.l.capacity > 0 && Concludes(sc, v, k, r, p)
    ensures r == NothingFits <==> HeadCannotFit(sc)
    ensures r == NoWindowCapacity <==> HeadCannotStay(sc)
  {
    hide Leaves, Partition, Held, WindowOk, TokensOf, Halts, Arrivals, Groups, Joins;
    HeadAlone(sc);
    if k > 0 {
      HeadServed(sc, k);
      EndsInCohort(sc, v, k);
      assert Passed(sc, 0) || Fitting(sc, 0);
    } else {
      hide HeadCannotFit, HeadCannotStay, Outcome;
      EndsAtHead(sc, v, r);
    }
  }

  lemma HeadAlone(sc: Scene)
    requires SceneOk(sc) && sc.w.cohort != [] && sc.l.capacity > 0
    ensures var x := sc.w.cohort[0];
      && !Passed(sc, 0) && Joins(sc)(x) && x in sc.all
      && (Over(sc, 0) <==> Cost(sc.a, x) > sc.budget)
      && Groups(sc, 0) == [] && Arrivals(sc, 0) == []
      && (Arrivals(sc, 1) == if x in sc.q0.swapped then [x] else [])
  {
    ActiveJoins(sc, 0);
    FilterMore(sc.w.cohort, 0, Among(Members(sc.q0.swapped)));
    assert sc.w.cohort[0] in sc.w.cohort;
    hide Joins, Partition, Held, Passed, WindowOk;
    assert sc.w.cohort[..0] == [] && sc.w.cohort[..1] == [sc.w.cohort[0]];
    assert Groups(sc, 0) == [] && TokensOf(sc.a, []) == 0;
  }

  lemma HeadServed(sc: Scene, k: nat)
    requires 0 < k <= |sc.w.cohort| && Joins(sc)(sc.w.cohort[0])
    ensures Groups(sc, k) != []
  {
    FilterMembers(sc.w.cohort[..k], Joins(sc));
    assert sc.w.cohort[..k][0] in sc.w.cohort[..k];
    assert sc.w.cohort[0] in Groups(sc, k);
  }

  lemma EndsAtHead(sc: Scene, v: Verdict, r: Result)
    requires sc.w.cohort != [] && Halts(sc, v, 0) && r == Outcome(sc, v, 0) && sc.all != {}
    requires Groups(sc, 0) == [] && Arrivals(sc, 0) == []
    requires var x := sc.w.cohort[0];
      (Over(sc, 0) <==> Cost(sc.a, x) > sc.budget) && (Arrivals(sc, 1) == if x in sc.q0.swapped then [x] else [])
    ensures r == NothingFits <==> HeadCannotFit(sc)
    ensures r == NoWindowCapacity <==> HeadCannotStay(sc)
  {
    hide TokensOf, Groups, Arrivals, Over, Cost, Passed, LastVictim;
  }

  // ---- The token budget ------------------------------------------------------------------------

  /** A group that still prefills has tokens left to compute. */
  ghost predicate Working(a: Answers) { forall x :: a.prefill(x) ==> a.uncomputed(x) > 0 }

  /** Who has slots for the window was counted against the budget together with the active groups before it. */
  ghost predicate Counted(l: Limits, budget: nat, w: Window, reserved: set<string>) {
    forall i :: 0 <= i < |w.cohort| && w.cohort[i] in reserved ==> Min(i + 1, l.capacity) <= budget
  }

  lemma {:induction false} GroupsWithin(sc: Scene, k: nat)
    requires k <= |sc.w.cohort| && forall j :: 0 <= j < k ==> Passed(sc, j) || Fitting(sc, j)
    ensures TokensOf(sc.a, Groups(sc, k)) <= sc.budget
  {
    hide Passed, Fitting, First, Cost;
    if k > 0 {
      assert Passed(sc, k - 1) || Fitting(sc, k - 1);
      GroupsWithin(sc, k - 1);
      GroupsMore(sc, k - 1);
    }
  }

  lemma GroupsMore(sc: Scene, k: nat)
    requires k < |sc.w.cohort|
    ensures var x := sc.w.cohort[k];
      TokensOf(sc.a, Groups(sc, k + 1)) == TokensOf(sc.a, Groups(sc, k)) + if Joins(sc)(x) then Cost(sc.a, x) else 0
    ensures (Passed(sc, k) ==> !Joins(sc)(sc.w.cohort[k])) && (Fitting(sc, k) ==> !Over(sc, k))
  {
    hide TokensOf, Cost;
    FilterMore(sc.w.cohort, k, Joins(sc));
    TokensMore(sc.a, Groups(sc, k), sc.w.cohort[k]);
  }

  /** Every active group takes at least one token. */
  lemma {:induction false} ActiveCount(sc: Scene, k: nat)
    requires SceneOk(sc) && k <= |sc.w.cohort| && Working(sc.a)
    ensures Min(k, sc.l.capacity) <= TokensOf(sc.a, Groups(sc, k))
  {
    hide Partition, Filter, TokensOf, Groups, Joins, Held, WindowOk;
    if k > 0 {
      ActiveCount(sc, k - 1);
      GroupsMore(sc, k - 1);
      if k - 1 < sc.l.capacity {
        ActiveJoins(sc, k - 1);
      }
    }
  }

  lemma {:induction false} DecodeTokens(a: Answers, groups: seq<string>)
    requires forall x :: x in groups ==> !a.prefill(x)
    ensures TokensOf(a, groups) == |groups|
  {
    if groups != [] {
      DecodeTokens(a, groups[..|groups| - 1]);
    }
  }

  /** A batch that admission built is within the budget. */
  lemma AdmittedWithinBudget(sc: Scene, r: Result, p: Plan)
    requires Steps(sc, r, p) && r.Planned? && !(Outsiders(sc) == [] && Continues(sc))
    ensures TokensOf(sc.a, r.batch.scheduled) <= sc.budget
  {
    hide Steps, TokensOf, Leaves, Ordered, Groups, Arrivals, Passed, Fitting, Halts;
    assert TokensOf(sc.a, []) == 0 by { DecodeTokens(sc.a, []); }
    if Outsiders(sc) == [] {
      AdmissionDecides(sc, r, p);
      var v, k :| Concludes(sc, v, k, r, p);
      GroupsWithin(sc, k);
      OrderedTokens(sc.a, Groups(sc, k));
    } else {
      OutsidersOnly(sc, r, p);
    }
  }

  lemma OutsidersOnly(sc: Scene, r: Result, p: Plan)
    requires Steps(sc, r, p) && Outsiders(sc) != []
    ensures r.Planned? && r.batch.scheduled == []
  {
    hide Leaves, Outsiders;
  }

  /** A prepared decode window stays within the budget that its admission was held to. */
  lemma ContinuedWithinBudget(sc: Scene, r: Result, p: Plan)
    requires SceneOk(sc) && Steps(sc, r, p) && Outsiders(sc) == [] && Continues(sc)
    requires Counted(sc.l, sc.budget, sc.w, sc.reserved0)
    ensures r.Planned? && TokensOf(sc.a, r.batch.scheduled) <= sc.budget
  {
    hide TokensOf, Leaves, Partition, Ordered, Filter, Outsiders;
    var groups := Filter(sc.w.cohort, Among(sc.w.active));
    FilterMembers(sc.w.cohort, Among(sc.w.active));
    DecodeTokens(sc.a, groups);
    OrderedTokens(sc.a, groups);
    NoDupSubLength(groups, Head(sc.l, sc.w.cohort));
    assert sc.w.cohort[|sc.w.cohort| - 1] in sc.w.cohort;
  }

  /** The step keeps who has slots counted. */
  lemma StepCounts(sc: Scene, r: Result, p: Plan)
    requires SceneOk(sc) && Steps(sc, r, p) && Working(sc.a) && Counted(sc.l, sc.budget, sc.w, sc.reserved0)
    ensures Counted(sc.l, sc.budget, p.w, p.reserved)
  {
    hide TokensOf, Partition, Steps, Working, SceneOk;
    StepIsSafe(sc, r, p);
    var k := Slots(sc, r, p);
    GroupsWithin(sc, k);
    ActiveCount(sc, k);
    forall i | 0 <= i < |p.w.cohort| && p.w.cohort[i] in p.reserved ensures Min(i + 1, sc.l.capacity) <= sc.budget {
      assert p.w.cohort[i] == sc.w.cohort[i];
      if p.w.cohort[i] !in sc.reserved0 {
        var j :| 0 <= j < k && sc.w.cohort[j] == p.w.cohort[i];
        assert NoDup(sc.w.cohort) by { CohortOnce(sc); }
      }
    }
  }

  lemma CohortOnce(sc: Scene)
    requires SceneOk(sc)
    ensures NoDup(sc.w.cohort)
  {
  }

  /** How many members of the cohort got their slots. */
  lemma Slots(sc: Scene, r: Result, p: Plan) returns (k: nat)
    requires Steps(sc, r, p)
    ensures k <= |sc.w.cohort| && forall j :: 0 <= j < k ==> Passed(sc, j) || Fitting(sc, j)
    ensures forall x :: x in p.reserved ==> x in sc.reserved0 || x in sc.w.cohort[..k]
  {
    hide Partition, Outsiders, Continues, Outcome, Halts, Passed, Fitting, Moved, Ordered, TokensOf, Reach, CutAt,
      Restored;
    if Outsiders(sc) != [] || Continues(sc) {
      k := 0;
    } else {
      AdmissionDecides(sc, r, p);
      var v, n :| Concludes(sc, v, n, r, p);
      k := n;
    }
  }

  // ---- The planner object ------------------------------------------------------------------------

  /** The step starts from the plan `p`: a boundary gives back all slots, and the window is selected. */
  ghost predicate StartsFrom(l: Limits, budget: nat, keys: Places<string>, p: Plan, sc: Scene)
    requires sc.all <= keys.Keys
  {
    var boundary := p.w.remaining == 0 || Members(p.w.cohort) * sc.all == {};
    && SelectsTo(l, p.w, sc.all, keys, sc.w)
    && sc.l == l && sc.budget == budget && sc.boundary == boundary && sc.q0 == p.q
    && sc.prepared0 == p.prepared * sc.all && sc.reserved0 == if boundary then {} else p.reserved
  }

  lemma StartOk(l: Limits, budget: nat, keys: Places<string>, p: Plan, sc: Scene)
    requires sc.all <= keys.Keys && StartsFrom(l, budget, keys, p, sc) && Partition(p.q, sc.all) && WindowOk(l, p.w)
    ensures SceneOk(sc) && (sc.all != {} && l.capacity > 0 ==> sc.w.cohort != [])
    ensures Held(sc) == sc.w.reserve * (p.prepared * Members(p.q.running))
  {
    SelectKeeps(l, p.w, sc.all, keys, sc.w);
    FilterMembers(p.w.cohort, Among(sc.all));
    hide WindowOk, Partition;
    if sc.all != {} && l.capacity > 0 && Boundary(p.w, sc.all) {
      var x :| x in sc.all;
      assert Members(sc.w.cohort) == sc.all ==> x in sc.w.cohort;
    }
    assert forall x :: x in p.q.running ==> x in sc.all by { AllGroups(p.q, sc.all); }
  }

  lemma AllGroups(q: Queues, all: set<string>)
    requires Partition(q, all)
    ensures Members(q.running + q.waiting + q.swapped) == all
    ensures forall x :: x in q.running ==> x in all
  {
  }

  // ---- Whole runs ------------------------------------------------------------------------------

  /** What happens to the planner: a step, an arrival, a departure, or an executed batch. */
  datatype Turn =
    | Step(keys: Places<string>, sc: Scene, r: Result)
    | Arrive(x: string)
    | Leave(x: string)
    | Run(prefill: bool)

  ghost predicate Turns(l: Limits, budget: nat, p: Plan, t: Turn, p': Plan) {
    match t
    case Step(keys, sc, r) =>
      Partition(p.q, sc.all) && sc.all <= keys.Keys && StartsFrom(l, budget, keys, p, sc) && Steps(sc, r, p')
    case Arrive(x) =>
      x !in p.q.running && x !in p.q.waiting && x !in p.q.swapped && p' == p.(q := p.q.(waiting := p.q.waiting + [x]))
    case Leave(x) => p' == p.(q := Ignored(p.q, x))
    case Run(prefill) => p' == p.(w := Executed(p.w, prefill))
  }

  ghost predicate PlanOk(l: Limits, budget: nat, p: Plan) {
    WindowOk(l, p.w) && Counted(l, budget, p.w, p.reserved) && exists all :: Partition(p.q, all)
  }

  /** A run from an empty planner through the plans `ps`. */
  ghost predicate IsPlanRun(l: Limits, budget: nat, ps: seq<Plan>, ts: seq<Turn>) {
    && |ps| == |ts| + 1 && ps[0] == Plan(Window(0, [], {}, {}), Queues([], [], []), {}, {})
    && (forall k :: 0 <= k < |ts| ==> Turns(l, budget, ps[k], ts[k], ps[k + 1]))
    && (forall k :: 0 <= k < |ts| && ts[k].Step? ==> Working(ts[k].sc.a))
  }

  /** In every run, every batch is within the token budget, those of the prepared decode windows included. */
  lemma {:induction false} RunsWithinBudget(l: Limits, budget: nat, ps: seq<Plan>, ts: seq<Turn>, k: nat)
    requires IsPlanRun(l, budget, ps, ts) && k <= |ts|
    ensures PlanOk(l, budget, ps[k])
    ensures k < |ts| && ts[k].Step? && ts[k].r.Planned? ==> TokensOf(ts[k].sc.a, ts[k].r.batch.scheduled) <= budget
  {
    hide PlanOk, Turns, TokensOf;
    if k == 0 {
      FreshPlan(l, budget);
    } else {
      RunsWithinBudget(l, budget, ps, ts, k - 1);
      TurnKeeps(l, budget, ps[k - 1], ts[k - 1], ps[k]);
    }
    if k < |ts| {
      assert Turns(l, budget, ps[k], ts[k], ps[k + 1]);
      TurnKeeps(l, budget, ps[k], ts[k], ps[k + 1]);
    }
  }

  lemma FreshPlan(l: Limits, budget: nat)
    ensures PlanOk(l, budget, Plan(Window(0, [], {}, {}), Queues([], [], []), {}, {}))
  {
    assert Partition(Queues([], [], []), {});
  }

  lemma TurnKeeps(l: Limits, budget: nat, p: Plan, t: Turn, p': Plan)
    requires PlanOk(l, budget, p) && Turns(l, budget, p, t, p') && (t.Step? ==> Working(t.sc.a))
    ensures PlanOk(l, budget, p')
    ensures t.Step? && t.r.Planned? ==> TokensOf(t.sc.a, t.r.batch.scheduled) <= budget
  {
    hide Partition, WindowOk, StartsFrom, Steps, Counted, TokensOf, Working;
    match t
    case Step(keys, sc, r) =>
      StepKeeps(l, budget, keys, p, sc, r, p');
    case Arrive(x) =>
      var all :| Partition(p.q, all);
      ArriveKeeps(p.q, all, x);
    case Leave(x) =>
      var all :| Partition(p.q, all);
      MovesKeepPartition(p.q, all, x);
    case Run(prefill) =>
      TruncateKeeps(l, p.w, 0, prefill);
      CountedAgain(l, budget, p.w, p'.w, p.reserved);
  }

  lemma CountedAgain(l: Limits, budget: nat, w: Window, w': Window, reserved: set<string>)
    requires Counted(l, budget, w, reserved) && w'.cohort == w.cohort
    ensures Counted(l, budget, w', reserved)
  {
  }

  lemma ArriveKeeps(q: Queues, all: set<string>, x: string)
    requires Partition(q, all) && x !in q.running && x !in q.waiting && x !in q.swapped
    ensures Partition(q.(waiting := q.waiting + [x]), all + {x})
  {
  }

  lemma StepKeeps(l: Limits, budget: nat, keys: Places<string>, p: Plan, sc: Scene, r: Result, p': Plan)
    requires WindowOk(l, p.w) && Counted(l, budget, p.w, p.reserved) && Partition(p.q, sc.all) && sc.all <= keys.Keys
    requires StartsFrom(l, budget, keys, p, sc) && Steps(sc, r, p') && Working(sc.a)
    ensures PlanOk(l, budget, p')
    ensures r.Planned? ==> TokensOf(sc.a, r.batch.scheduled) <= budget
  {
    hide Partition, WindowOk, Steps, Counted, TokensOf, Working, SceneOk, SelectsTo, Safe, Continues, Outsiders;
    StartOk(l, budget, keys, p, sc);
    StartCounts(l, budget, keys, p, sc);
    StepIsSafe(sc, r, p');
    StepCounts(sc, r, p');
    if r.Planned? {
      SafePartition(sc, r.batch, p');
      if Outsiders(sc) == [] && Continues(sc) {
        ContinuedWithinBudget(sc, r, p');
      } else {
        AdmittedWithinBudget(sc, r, p');
      }
    }
  }

  lemma SafePartition(sc: Scene, b: Batch, p: Plan)
    requires Safe(sc, b, p)
    ensures Partition(p.q, sc.all - Members(b.ignored))
  {
  }

  /** Selecting a window moves nobody back, and a boundary gives back all slots. */
  lemma StartCounts(l: Limits, budget: nat, keys: Places<string>, p: Plan, sc: Scene)
    requires sc.all <= keys.Keys && StartsFrom(l, budget, keys, p, sc)
    requires WindowOk(l, p.w) && Counted(l, budget, p.w, p.reserved)
    ensures Counted(l, budget, sc.w, sc.reserved0)
  {
    var kept := Remaining(p.w, sc.all);
    FilterMembers(p.w.cohort, Among(sc.all));
    if sc.all != {} && !sc.boundary {
      assert kept != [] by {
        var x :| x in Members(p.w.cohort) * sc.all;
        assert x in kept;
      }
      forall j | 0 <= j < |kept| && kept[j] in p.reserved ensures Min(j + 1, l.capacity) <= budget {
        assert kept[j] in kept;
        var i :| 0 <= i < |p.w.cohort| && p.w.cohort[i] == kept[j];
        StaysInHead(p.w.cohort, Among(sc.all), i);
      }
    }
  }

  class PaperPlan {
    const window: SchedulingWindow
    const budget: nat
    var running: seq<string>
    var waiting: seq<string>
    var swapped: seq<string>
    var prepared: set<string>
    var reserved: set<string>

    function Q(): Queues
      reads this
    {
      Queues(running, waiting, swapped)
    }

    function State(): Plan
      reads this, window
    {
      Plan(window.State(), Q(), prepared, reserved)
    }

    constructor (window: SchedulingWindow, budget: nat)
      ensures this.window == window && this.budget == budget
      ensures State() == Plan(window.State(), Queues([], [], []), {}, {})
    {
      this.window, this.budget := window, budget;
      running, waiting, swapped, prepared, reserved := [], [], [], {}, {};
    }

    /** `next_step`: `a` answers for the block manager, `keys` are the controller's keys after its refresh. */
    method NextStep(a: Answers, keys: Places<string>, ghost counter: nat, ghost all: set<string>)
        returns (r: Result, ghost sc: Scene)
      requires Partition(Q(), all) && WindowOk(window.limits, window.State()) && all <= keys.Keys
        && Stamped(keys, counter)
      modifies this, window
      ensures sc.a == a && sc.all == all && StartsFrom(window.limits, budget, keys, old(State()), sc)
      ensures Steps(sc, r, State()) && WindowOk(window.limits, window.State())
    {
      hide Partition, WindowOk, SelectsTo, Stamped, Steps, Held, SceneOk;
      ghost var before := State();
      var resident := prepared * Members(running);
      var byId := Members(running + waiting + swapped);
      AllGroups(Q(), all);
      var boundary := window.remaining == 0 || Members(window.cohort) * byId == {};
      if boundary {
        reserved := {};
      }
      var chosen, held := window.Select(byId, resident, keys, counter);
      prepared := prepared * byId;
      var scene := Scene(window.limits, budget, a, boundary, window.State(), Q(), prepared, reserved, byId);
      StartOk(window.limits, budget, keys, before, scene);
      var q, prep, resv, keep;
      r, q, prep, resv, keep := Materialize(scene, chosen);
      running, waiting, swapped, prepared, reserved := q.running, q.waiting, q.swapped, prep, resv;
      if keep.Some? {
        window.RetainPrefix(keep.value);
      }
      sc := scene;
    }
  }
}
