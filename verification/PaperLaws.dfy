/** What one planner step does to every group, in terms of the state before it and the answers of the block manager. */
module PaperLaws {
  import opened Sequences
  import opened Levels
  import opened Windows
  import opened PaperPlans

  /** The block manager has blocks for the group, asked as its queue demands. */
  ghost predicate HasBlocks(sc: Scene, x: string) {
    && (x in sc.q0.waiting ==> sc.a.allocate(x) == Fits)
    && (x in sc.q0.swapped ==> sc.a.swapIn(x) == Fits)
    && (x in sc.q0.running ==> sc.a.appendBefore(x))
  }

  /** The group has something to run: it is active, or a reserve that still prefills and is not prepared on the GPU. */
  ghost predicate HasWork(sc: Scene, x: string) {
    x in sc.w.active || (sc.a.prefill(x) && !(x in sc.prepared0 && x in sc.q0.running))
  }

  /** The tokens of the listed groups: what is left of a prefill, or one for a decode. */
  function Load(a: Answers, groups: seq<string>): nat {
    if groups == [] then 0 else (if a.prefill(groups[0]) then a.uncomputed(groups[0]) else 1) + Load(a, groups[1..])
  }

  lemma {:induction false} LoadAppend(a: Answers, s: seq<string>, x: string)
    ensures Load(a, s + [x]) == Load(a, s) + if a.prefill(x) then a.uncomputed(x) else 1
  {
    if s == [] {
      assert s + [x] == [x];
    } else {
      LoadAppend(a, s[1..], x);
      assert (s + [x])[1..] == s[1..] + [x];
    }
  }

  lemma {:induction false} LoadIsTokens(a: Answers, s: seq<string>)
    ensures Load(a, s) == TokensOf(a, s)
    decreases |s|
  {
    if s != [] {
      var n := |s| - 1;
      LoadIsTokens(a, s[..n]);
      LoadAppend(a, s[..n], s[n]);
      assert s[..n] + [s[n]] == s;
    }
  }

  lemma FirstIs(sc: Scene, x: string)
    requires SceneOk(sc) && x in sc.all
    ensures First(sc, x) == Fits <==> HasBlocks(sc, x)
  {
  }

  lemma JoinsIs(sc: Scene, x: string)
    requires SceneOk(sc) && x in sc.w.cohort
    ensures Joins(sc)(x) <==> HasWork(sc, x)
  {
    Parts(sc.l, sc.w.cohort);
    assert x in Members(sc.w.cohort);
    hide Partition, Head, Tail;
    assert x in sc.w.active <==> x !in sc.w.reserve;
    assert x in Held(sc) <==> x in sc.w.reserve && x in sc.prepared0 && x in sc.q0.running;
  }

  /** A batch that executes is exactly the members of the (cut) cohort that have something to run, each once. */
  lemma WhoRuns(sc: Scene, r: Result, p: Plan)
    requires SceneOk(sc) && Steps(sc, r, p) && r.Planned? && r.batch.scheduled != []
    ensures forall x :: x in r.batch.scheduled <==> x in p.w.cohort && HasWork(sc, x)
    ensures NoDup(r.batch.scheduled)
  {
    hide Steps, Filter, Joins, HasWork, Partition, Ordered, Precedes;
    StepIsSafe(sc, r, p);
    var groups := Filter(p.w.cohort, Joins(sc));
    FilterMembers(p.w.cohort, Joins(sc));
    OrderedMembers(sc.a, groups);
    forall x ensures x in r.batch.scheduled <==> x in p.w.cohort && HasWork(sc, x) {
      if x in p.w.cohort {
        JoinsIs(sc, x);
      }
    }
  }

  /** Whatever the step returns or raises: the first `n` members of the cohort were moved to the GPU, and the first `k`
      of them got their slots. */
  ghost predicate Standing(sc: Scene, r: Result, p: Plan, n: nat, k: nat, prepared: set<string>) {
    var out := if r.Planned? then Members(r.batch.outgoing) else {};
    var lost := if r.Planned? then Members(r.batch.ignored) else {};
    && Stands(sc, n, k, out, lost, p.q, prepared, p.reserved) && p.prepared == prepared + Ran(r)
    && (forall x :: x in out ==> x in sc.q0.running) && (forall x :: x in lost ==> x !in sc.w.cohort[..n])
    && (forall x :: x in sc.w.cohort[..k] ==> x !in out && x !in lost)
    && (forall j :: 0 <= j < k ==> Passed(sc, j) || Fitting(sc, j))
    && (forall j :: k <= j < n ==> First(sc, sc.w.cohort[j]) == Fits)
    && (r.Planned? ==> r.batch.incoming == Arrivals(sc, n))
  }

  lemma WhatLeaves(sc: Scene, n: nat, k: nat, out: set<string>, lost: set<string>, r: Result, p: Plan)
      returns (prepared: set<string>)
    requires Leaves(sc, n, k, out, lost, r, p)
    ensures Stands(sc, n, k, out, lost, p.q, prepared, p.reserved) && p.prepared == prepared + Ran(r)
  {
    hide Stands;
    prepared :| Stands(sc, n, k, out, lost, p.q, prepared, p.reserved) && p.prepared == prepared + Ran(r);
  }

  lemma StandsSomehow(sc: Scene, r: Result, p: Plan) returns (n: nat, k: nat, prepared: set<string>)
    requires SceneOk(sc) && Steps(sc, r, p)
    ensures Standing(sc, r, p, n, k, prepared)
  {
    hide SceneOk, Concludes, Standing, Leaves, Continues, Stands, Ordered, Outsiders;
    n, k := 0, 0;
    if Outsiders(sc) != [] {
      prepared := WhatLeaves(sc, 0, 0, Members(Outsiders(sc)), {}, r, p);
      OutsidersLeave(sc, r, p, prepared);
    } else if Continues(sc) {
      prepared := WhatLeaves(sc, 0, 0, {}, {}, r, p);
      NobodyMoves(sc, r, p, prepared);
    } else {
      var v, m :| Concludes(sc, v, m, r, p);
      n, k, prepared := AdmissionStands(sc, v, m, r, p);
    }
  }

  lemma OutsidersLeave(sc: Scene, r: Result, p: Plan, prepared: set<string>)
    requires r == Planned(Batch([], [], Outsiders(sc), [])) && p.prepared == prepared + Ran(r)
    requires Stands(sc, 0, 0, Members(Outsiders(sc)), {}, p.q, prepared, p.reserved)
    ensures Standing(sc, r, p, 0, 0, prepared)
  {
    hide Stands;
    FilterMembers(sc.q0.running, Outside(sc.w.cohort));
    assert Members(r.batch.ignored) == {};
  }

  lemma NobodyMoves(sc: Scene, r: Result, p: Plan, prepared: set<string>)
    requires r.Planned? && r.batch.outgoing == [] && r.batch.incoming == [] && r.batch.ignored == []
    requires p.prepared == prepared + Ran(r) && Stands(sc, 0, 0, {}, {}, p.q, prepared, p.reserved)
    ensures Standing(sc, r, p, 0, 0, prepared)
  {
    hide Stands;
    assert Members(r.batch.ignored) == {};
  }

  lemma AdmissionStands(sc: Scene, v: Verdict, m: nat, r: Result, p: Plan)
      returns (n: nat, k: nat, prepared: set<string>)
    requires SceneOk(sc) && Concludes(sc, v, m, r, p)
    ensures Standing(sc, r, p, n, k, prepared)
  {
    n, k := Reach(sc, m), m;
    prepared := WhatLeaves(sc, n, k, Out(v), Lost(sc, v, k), r, p);
    hide *;
    assert Ends(sc, v, k) && r == Outcome(sc, v, k) by { ConcludesHas(sc, v, k, r, p); }
    OutcomeMoves(sc, v, k, r);
    EndsApart(sc, v, k);
    StandingIs(sc, r, p, n, k, prepared, Out(v), Lost(sc, v, k));
  }

  lemma ConcludesHas(sc: Scene, v: Verdict, k: nat, r: Result, p: Plan)
    requires Concludes(sc, v, k, r, p)
    ensures Ends(sc, v, k) && k <= |sc.w.cohort| && Reach(sc, k) <= |sc.w.cohort| && r == Outcome(sc, v, k)
  {
    hide Outcome, Leaves, Reach, Halts;
  }

  lemma StandingIs(sc: Scene, r: Result, p: Plan, n: nat, k: nat, prepared: set<string>, out: set<string>,
                   lost: set<string>)
    requires Stands(sc, n, k, out, lost, p.q, prepared, p.reserved) && p.prepared == prepared + Ran(r)
    requires k <= n <= |sc.w.cohort|
    requires out == (if r.Planned? then Members(r.batch.outgoing) else {})
    requires lost == (if r.Planned? then Members(r.batch.ignored) else {})
    requires forall x :: x in out ==> x in sc.q0.running && x !in sc.w.cohort[..k]
    requires forall x :: x in lost ==> x !in sc.w.cohort[..k] && x !in sc.w.cohort[..n]
    requires forall j :: 0 <= j < k ==> Passed(sc, j) || Fitting(sc, j)
    requires forall j :: k <= j < n ==> First(sc, sc.w.cohort[j]) == Fits
    requires r.Planned? ==> r.batch.incoming == Arrivals(sc, n)
    ensures Standing(sc, r, p, n, k, prepared)
  {
    hide Stands, Ran, Passed, Fitting, First, Arrivals;
  }

  lemma OutcomeMoves(sc: Scene, v: Verdict, k: nat, r: Result)
    requires Ends(sc, v, k) && Reach(sc, k) <= |sc.w.cohort| && r == Outcome(sc, v, k)
    ensures (if r.Planned? then Members(r.batch.outgoing) else {}) == Out(v)
    ensures (if r.Planned? then Members(r.batch.ignored) else {}) == Lost(sc, v, k)
    ensures r.Planned? ==> r.batch.incoming == Arrivals(sc, Reach(sc, k))
  {
    hide Groups, Arrivals, Ordered, Over, First, Passed, Fitting, TokensOf;
  }

  lemma EndsApart(sc: Scene, v: Verdict, k: nat)
    requires SceneOk(sc) && Ends(sc, v, k)
    ensures k <= Reach(sc, k) <= |sc.w.cohort|
    ensures forall x :: x in Out(v) ==> x in sc.q0.running && x !in sc.w.cohort[..k]
    ensures forall x :: x in Lost(sc, v, k) ==> x !in sc.w.cohort[..k] && x !in sc.w.cohort[..Reach(sc, k)]
    ensures forall j :: 0 <= j < k ==> Passed(sc, j) || Fitting(sc, j)
    ensures forall j :: k <= j < Reach(sc, k) ==> First(sc, sc.w.cohort[j]) == Fits
  {
    hide Groups, Arrivals, Over, First, Passed, Fitting, Partition, Crowded;
    assert NoDup(sc.w.cohort);
  }

  /** Who comes to the GPU, who leaves it, and who gets slots. */
  lemma WhoMoves(sc: Scene, r: Result, p: Plan)
    requires SceneOk(sc) && Steps(sc, r, p)
    ensures forall x :: x in p.q.running && x !in sc.q0.running ==> x in sc.w.cohort && HasBlocks(sc, x)
    ensures forall x :: x in sc.q0.running && x !in p.q.running ==>
      r.Planned? && (x in r.batch.outgoing || x in r.batch.ignored)
    ensures r.Planned? ==> forall x :: x in r.batch.incoming <==> x in sc.q0.swapped && x in p.q.running
    ensures forall x :: x in p.reserved && x !in sc.reserved0 ==>
      x in sc.w.cohort && x in p.q.running && HasBlocks(sc, x) && sc.a.appendAfter(x)
    ensures forall x :: x in sc.reserved0 ==> x in p.reserved || (r.Planned? && x in r.batch.outgoing)
    ensures forall x :: x in p.prepared <==>
      || (x in sc.prepared0 && !(r.Planned? && x in r.batch.outgoing))
      || (x in sc.q0.swapped && x in p.q.running && !sc.a.prefill(x))
      || (r.Planned? && x in r.batch.scheduled)
  {
    hide Steps;
    var n, k, prepared := StandsSomehow(sc, r, p);
    MembersPlaced(sc, r, p, n, k, prepared);
    MovesOf(sc, r, p, n, k, prepared);
    SlotsOf(sc, r, p, n, k, prepared);
    PreparedOf(sc, r, p, n, k, prepared);
  }

  /** Of the first `k` members of the cohort each one was passed over or fits. */
  lemma MembersPlaced(sc: Scene, r: Result, p: Plan, n: nat, k: nat, prepared: set<string>)
    requires SceneOk(sc) && Standing(sc, r, p, n, k, prepared)
    ensures forall x :: x in sc.w.cohort[..n] ==> x in sc.w.cohort && (x in sc.q0.running || HasBlocks(sc, x))
    ensures forall x :: x in sc.w.cohort[..k] ==>
      x in sc.w.cohort[..n] && (x in sc.reserved0 || (HasBlocks(sc, x) && sc.a.appendAfter(x)))
  {
    hide Partition, Moved, WindowOk, HasBlocks, Over, First, Held, TokensOf;
    forall j | 0 <= j < n
      ensures var x := sc.w.cohort[j];
        && x in sc.w.cohort && (x in sc.q0.running || HasBlocks(sc, x))
        && (j < k ==> x in sc.w.cohort[..n] && (x in sc.reserved0 || (HasBlocks(sc, x) && sc.a.appendAfter(x))))
    {
      MemberPlaced(sc, j);
      TakenAt(sc.w.cohort, n, j);
    }
  }

  lemma MemberPlaced(sc: Scene, j: nat)
    requires SceneOk(sc) && j < |sc.w.cohort|
    ensures Passed(sc, j) ==> sc.w.cohort[j] in sc.q0.running && sc.w.cohort[j] in sc.reserved0
    ensures Fitting(sc, j) ==> HasBlocks(sc, sc.w.cohort[j]) && sc.a.appendAfter(sc.w.cohort[j])
    ensures First(sc, sc.w.cohort[j]) == Fits ==> HasBlocks(sc, sc.w.cohort[j])
  {
    assert sc.w.cohort[j] in sc.w.cohort;
    FirstIs(sc, sc.w.cohort[j]);
  }

  lemma MovesOf(sc: Scene, r: Result, p: Plan, n: nat, k: nat, prepared: set<string>)
    requires SceneOk(sc) && Standing(sc, r, p, n, k, prepared)
    requires forall x :: x in sc.w.cohort[..n] ==> x in sc.w.cohort && (x in sc.q0.running || HasBlocks(sc, x))
    ensures forall x :: x in p.q.running && x !in sc.q0.running ==> x in sc.w.cohort && HasBlocks(sc, x)
    ensures forall x :: x in sc.q0.running && x !in p.q.running ==>
      r.Planned? && (x in r.batch.outgoing || x in r.batch.ignored)
    ensures r.Planned? ==> forall x :: x in r.batch.incoming <==> x in sc.q0.swapped && x in p.q.running
  {
    hide WindowOk, HasBlocks, Passed, Fitting, First, Restored, Ran;
    FilterMembers(sc.w.cohort[..n], Among(Members(sc.q0.swapped)));
    hide Filter;
  }

  lemma SlotsOf(sc: Scene, r: Result, p: Plan, n: nat, k: nat, prepared: set<string>)
    requires SceneOk(sc) && Standing(sc, r, p, n, k, prepared)
    requires forall x :: x in sc.w.cohort[..k] ==>
      x in sc.w.cohort[..n] && (x in sc.reserved0 || (HasBlocks(sc, x) && sc.a.appendAfter(x)))
    ensures forall x :: x in p.reserved && x !in sc.reserved0 ==>
      x in sc.w.cohort && x in p.q.running && HasBlocks(sc, x) && sc.a.appendAfter(x)
    ensures forall x :: x in sc.reserved0 ==> x in p.reserved || (r.Planned? && x in r.batch.outgoing)
  {
    hide WindowOk, HasBlocks, Passed, Fitting, First, Partition;
  }

  lemma PreparedOf(sc: Scene, r: Result, p: Plan, n: nat, k: nat, prepared: set<string>)
    requires SceneOk(sc) && Standing(sc, r, p, n, k, prepared)
    ensures forall x :: x in p.prepared <==>
      || (x in sc.prepared0 && !(r.Planned? && x in r.batch.outgoing))
      || (x in sc.q0.swapped && x in p.q.running && !sc.a.prefill(x))
      || (r.Planned? && x in r.batch.scheduled)
  {
    hide WindowOk, Passed, Fitting, First;
  }

  /** Slots are given in the order of the cohort. */
  lemma SlotsInOrder(sc: Scene, r: Result, p: Plan, i: nat, j: nat)
    requires SceneOk(sc) && Steps(sc, r, p) && i < j < |sc.w.cohort|
    requires sc.w.cohort[j] in p.reserved && sc.w.cohort[j] !in sc.reserved0
    ensures sc.w.cohort[i] in p.reserved && sc.w.cohort[i] in p.q.running
  {
    hide Steps, Passed, Fitting, First, Partition, WindowOk;
    var n, k, prepared := StandsSomehow(sc, r, p);
    assert NoDup(sc.w.cohort) by { CohortOnce(sc); }
    var m :| 0 <= m < k && sc.w.cohort[m] == sc.w.cohort[j];
    TakenAt(sc.w.cohort, k, i);
    TakenAt(sc.w.cohort, n, i);
  }

  // ---- When admission stops --------------------------------------------------------------------

  /** The cohort is cut only before a group that does not fit: with it the batch would exceed the token budget, or the
      block manager has no blocks for it now or for the rest of the window. */
  lemma CutIsForced(sc: Scene, r: Result, p: Plan)
    requires SceneOk(sc) && Steps(sc, r, p) && r.Planned? && p.w.cohort != sc.w.cohort
    ensures |p.w.cohort| < |sc.w.cohort| && r.batch.outgoing == []
    ensures var x := sc.w.cohort[|p.w.cohort|];
      || (HasWork(sc, x) && Load(sc.a, r.batch.scheduled + [x]) > sc.budget)
      || ((!HasBlocks(sc, x) || !sc.a.appendAfter(x))
          && (r.batch.incoming != [] || forall y :: y in sc.w.cohort[|p.w.cohort| + 1..] ==> y !in sc.q0.running))
  {
    hide Steps, Continues, Outsiders, Concludes, HasBlocks, HasWork, SceneOk;
    assert Outsiders(sc) == [] && !Continues(sc) by { OnlyAdmissionCuts(sc, r, p); }
    AdmissionDecides(sc, r, p);
    var v, k: nat :| Concludes(sc, v, k, r, p);
    CutMeans(sc, v, k, r, p);
    StopsBecause(sc, k);
    OrderedTokens(sc.a, Groups(sc, k));
    LoadIsTokens(sc.a, r.batch.scheduled);
    LoadAppend(sc.a, r.batch.scheduled, sc.w.cohort[k]);
  }

  lemma OnlyAdmissionCuts(sc: Scene, r: Result, p: Plan)
    requires Steps(sc, r, p) && p.w != sc.w
    ensures Outsiders(sc) == [] && !Continues(sc)
  {
    hide Concludes, Outsiders, Continues;
  }

  lemma CutMeans(sc: Scene, v: Verdict, k: nat, r: Result, p: Plan)
    requires Concludes(sc, v, k, r, p) && r.Planned? && p.w.cohort != sc.w.cohort
    ensures k < |sc.w.cohort| && |p.w.cohort| == k && !Passed(sc, k) && !Fitting(sc, k)
    ensures forall j :: 0 <= j < k ==> Passed(sc, j) || Fitting(sc, j)
    ensures r.batch.scheduled == Ordered(sc.a, Groups(sc, k)) && r.batch.outgoing == []
    ensures Over(sc, k) || r.batch.incoming != [] || forall y :: y in sc.w.cohort[k + 1..] ==> y !in sc.q0.running
  {
    hide Leaves, Groups, Arrivals, Over, First, Passed, Fitting, Ordered, Crowded, LastVictim, Reach;
    NobodyBehind(sc, k);
  }

  lemma NobodyBehind(sc: Scene, k: nat)
    requires k < |sc.w.cohort|
    ensures Crowded(sc, k) || forall y :: y in sc.w.cohort[k + 1..] ==> y !in sc.q0.running
  {
    forall y | y in sc.w.cohort[k + 1..] && y in sc.q0.running ensures Crowded(sc, k) {
      var i :| 0 <= i < |sc.w.cohort[k + 1..]| && sc.w.cohort[k + 1..][i] == y;
      assert sc.w.cohort[k + 1 + i] == y;
    }
  }

  lemma StopsBecause(sc: Scene, k: nat)
    requires SceneOk(sc) && k < |sc.w.cohort| && !Passed(sc, k) && !Fitting(sc, k)
    requires forall j :: 0 <= j < k ==> Passed(sc, j) || Fitting(sc, j)
    ensures var x := sc.w.cohort[k];
      if Over(sc, k) then
        HasWork(sc, x) && TokensOf(sc.a, Groups(sc, k))
          + (if sc.a.prefill(x) then sc.a.uncomputed(x) else 1) > sc.budget
      else !HasBlocks(sc, x) || !sc.a.appendAfter(x)
  {
    hide Groups, TokensOf, Partition, HasBlocks, HasWork, Joins, First, Passed;
    var x := sc.w.cohort[k];
    GroupsWithin(sc, k);
    assert x in sc.w.cohort;
    FirstIs(sc, x);
    JoinsIs(sc, x);
  }

  lemma {:induction false} GroupsLoad(sc: Scene, k: nat)
    requires k <= |sc.w.cohort|
    ensures TokensOf(sc.a, Groups(sc, k)) <= Load(sc.a, sc.w.cohort[..k])
  {
    hide TokensOf, Load, Groups, Joins;
    if k == 0 {
      LoadIsTokens(sc.a, Groups(sc, 0));
      NoGroups(sc);
    } else {
      GroupsLoad(sc, k - 1);
      GroupsMore(sc, k - 1);
      TakeMore(sc.w.cohort, k - 1);
      LoadAppend(sc.a, sc.w.cohort[..k - 1], sc.w.cohort[k - 1]);
    }
  }

  lemma NoGroups(sc: Scene)
    ensures Groups(sc, 0) == [] && Load(sc.a, []) == 0
  {
  }

  lemma {:induction false} LoadPrefix(a: Answers, s: seq<string>, k: nat)
    requires k <= |s|
    ensures Load(a, s[..k]) <= Load(a, s)
  {
    if k > 0 {
      LoadPrefix(a, s[1..], k - 1);
      assert s[..k][1..] == s[1..][..k - 1];
    }
  }

  /** If nobody has to leave, the block manager agrees to everything and the tokens of the whole cohort are within the
      budget, everybody is admitted. */
  lemma AdmitsEverybody(sc: Scene, r: Result, p: Plan)
    requires SceneOk(sc) && Steps(sc, r, p) && sc.w.cohort != [] && sc.l.capacity > 0
    requires forall x :: x in sc.q0.running ==> x in sc.w.cohort
    requires forall x :: x in sc.w.cohort ==> HasBlocks(sc, x) && sc.a.appendAfter(x)
    requires Load(sc.a, sc.w.cohort) <= sc.budget
    ensures r.Planned? && r.batch.outgoing == [] && r.batch.ignored == [] && p.w == sc.w
    ensures forall x :: x in sc.w.cohort ==> x in p.reserved && x in p.q.running
    ensures forall x :: x in r.batch.scheduled <==> x in sc.w.cohort && HasWork(sc, x)
  {
    hide Steps, Continues, Concludes, HasBlocks, HasWork, SceneOk, Load;
    FilterNone(sc.q0.running, Outside(sc.w.cohort));
    hide Outsiders;
    if Continues(sc) {
      GoesOn(sc, r, p);
    } else {
      AdmissionDecides(sc, r, p);
      var v, k :| Concludes(sc, v, k, r, p);
      EverybodyFits(sc, v, k, r, p);
    }
    WhoRuns(sc, r, p);
  }

  lemma GoesOn(sc: Scene, r: Result, p: Plan)
    requires SceneOk(sc) && Steps(sc, r, p) && Outsiders(sc) == [] && Continues(sc) && sc.l.capacity > 0
    ensures r.Planned? && r.batch.outgoing == [] && r.batch.ignored == [] && r.batch.scheduled != [] && p.w == sc.w
    ensures forall x :: x in sc.w.cohort ==> x in p.reserved && x in p.q.running
  {
    hide Partition, WindowOk, Ordered, Filter;
    FastPath(sc);
    assert Filter(sc.w.cohort, Among(sc.w.active)) == Filter(sc.w.cohort, Joins(sc));
  }

  lemma EverybodyFits(sc: Scene, v: Verdict, k: nat, r: Result, p: Plan)
    requires SceneOk(sc) && Concludes(sc, v, k, r, p) && sc.w.cohort != [] && sc.l.capacity > 0
    requires forall x :: x in sc.w.cohort ==> HasBlocks(sc, x) && sc.a.appendAfter(x)
    requires Load(sc.a, sc.w.cohort) <= sc.budget
    ensures r.Planned? && r.batch.outgoing == [] && r.batch.ignored == [] && r.batch.scheduled != [] && p.w == sc.w
    ensures forall x :: x in sc.w.cohort ==> x in p.reserved && x in p.q.running
  {
    hide HasBlocks, Load, Halts, Groups, Arrivals, Ordered, Joins, Held, Over, Passed, Fitting, First, Leaves,
      Partition;
    if k < |sc.w.cohort| {
      NothingStops(sc, v, k);
    }
    ActiveJoins(sc, 0);
    HeadServed(sc, k);
    OrderedMembers(sc.a, Groups(sc, k));
    assert Groups(sc, k)[0] in Ordered(sc.a, Groups(sc, k));
    var prepared := WhatLeaves(sc, k, k, {}, {}, r, p);
    TakeAll(sc.w.cohort);
  }

  lemma NothingStops(sc: Scene, v: Verdict, k: nat)
    requires SceneOk(sc) && k < |sc.w.cohort|
    requires forall x :: x in sc.w.cohort ==> HasBlocks(sc, x) && sc.a.appendAfter(x)
    requires Load(sc.a, sc.w.cohort) <= sc.budget
    ensures !Halts(sc, v, k)
  {
    hide HasBlocks, Load, Groups, Arrivals, Joins, Held, Passed, First, Partition, TokensOf;
    var x := sc.w.cohort[k];
    assert x in sc.w.cohort;
    FirstIs(sc, x);
    GroupsLoad(sc, k + 1);
    GroupsMore(sc, k);
    LoadPrefix(sc.a, sc.w.cohort, k + 1);
  }

  /** Who is swapped out: everyone outside the cohort; or one group, the running cohort member of least priority, behind
      a member for which the block manager has no blocks. */
  lemma WhoIsSwappedOut(sc: Scene, r: Result, p: Plan)
    requires SceneOk(sc) && Steps(sc, r, p) && r.Planned?
    ensures (exists x :: x in sc.q0.running && x !in sc.w.cohort) ==>
      forall x :: x in r.batch.outgoing <==> x in sc.q0.running && x !in sc.w.cohort
    ensures (forall x :: x in sc.q0.running ==> x in sc.w.cohort) && r.batch.outgoing != [] ==>
      exists k: nat, j: nat :: GivesWayTo(sc, k, j) && r.batch.outgoing == [sc.w.cohort[j]]
  {
    hide Steps, GivesWayTo, SceneOk, HasBlocks;
    FilterMembers(sc.q0.running, Outside(sc.w.cohort));
    EmptyOrMember(Outsiders(sc));
    if r.batch.outgoing != Outsiders(sc) {
      WhoGoesOut(sc, r, p);
      var k, victim :| r.batch.outgoing == [victim] && Blocked(sc, k) && LastVictim(sc, k, victim);
      var j := VictimStands(sc, k, victim);
    }
  }

  /** `cohort[j]` is the last running member, and `cohort[k]` before it is the first without blocks. */
  ghost predicate GivesWayTo(sc: Scene, k: nat, j: nat) {
    && k < j < |sc.w.cohort| && sc.w.cohort[j] in sc.q0.running
    && (forall i :: j < i < |sc.w.cohort| ==> sc.w.cohort[i] !in sc.q0.running)
    && !(HasBlocks(sc, sc.w.cohort[k]) && sc.a.appendAfter(sc.w.cohort[k]))
    && (forall i :: 0 <= i < k ==>
          sc.w.cohort[i] in sc.reserved0 || (HasBlocks(sc, sc.w.cohort[i]) && sc.a.appendAfter(sc.w.cohort[i])))
  }

  lemma VictimStands(sc: Scene, k: nat, victim: string) returns (j: nat)
    requires SceneOk(sc) && Blocked(sc, k) && LastVictim(sc, k, victim)
    ensures GivesWayTo(sc, k, j) && sc.w.cohort[j] == victim
  {
    hide Partition, HasBlocks, Passed, Over, First, WindowOk, TokensOf, SceneOk;
    j :| k < j < |sc.w.cohort| && sc.w.cohort[j] == victim && victim in sc.q0.running
         && forall i :: j < i < |sc.w.cohort| ==> sc.w.cohort[i] !in sc.q0.running;
    MemberFits(sc, k);
    forall i | 0 <= i < k
      ensures sc.w.cohort[i] in sc.reserved0 || (HasBlocks(sc, sc.w.cohort[i]) && sc.a.appendAfter(sc.w.cohort[i]))
    {
      MemberPlaced(sc, i);
    }
  }

  lemma MemberFits(sc: Scene, k: nat)
    requires SceneOk(sc) && k < |sc.w.cohort|
    ensures Fitting(sc, k) <==> !Over(sc, k) && HasBlocks(sc, sc.w.cohort[k]) && sc.a.appendAfter(sc.w.cohort[k])
  {
    hide Over, First, HasBlocks, Partition, WindowOk;
    assert sc.w.cohort[k] in sc.w.cohort;
    FirstIs(sc, sc.w.cohort[k]);
  }

  /** A prepared decode window: everyone of the cohort runs, decodes and has its slots. */
  ghost predicate PreparedWindow(sc: Scene) {
    !sc.boundary && forall x :: x in sc.w.cohort ==>
      x in sc.prepared0 && x in sc.reserved0 && x in sc.q0.running && !sc.a.prefill(x)
  }

  /** The block manager answers "later" to the group, asked as its queue demands. */
  ghost predicate MustWait(sc: Scene, x: string) {
    && (x in sc.q0.waiting ==> sc.a.allocate(x) == Later)
    && (x in sc.q0.swapped ==> sc.a.swapIn(x) == Later)
    && (x in sc.q0.running ==> !sc.a.appendBefore(x))
  }

  /** The step raises exactly when admission has to start and the request of highest priority has no place: its own
      tokens exceed the budget, or it must wait with nobody of lower priority running; and with the other error when it
      fits, on the GPU already, but not for the rest of the window. */
  lemma Raises(sc: Scene, r: Result, p: Plan)
    requires SceneOk(sc) && sc.w.cohort != [] && sc.l.capacity > 0 && Steps(sc, r, p)
    ensures var x := sc.w.cohort[0];
      var starts := (forall y :: y in sc.q0.running ==> y in sc.w.cohort) && !PreparedWindow(sc);
      var tokens := if sc.a.prefill(x) then sc.a.uncomputed(x) else 1;
      var alone := forall y :: y in sc.w.cohort[1..] ==> y !in sc.q0.running;
      && (r == NothingFits <==> starts && (tokens > sc.budget || (MustWait(sc, x) && alone)))
      && (r == NoWindowCapacity <==>
           starts && tokens <= sc.budget && HasBlocks(sc, x) && !sc.a.appendAfter(x) && alone && x !in sc.q0.swapped)
  {
    hide Steps, Partition, HasBlocks, MustWait, WindowOk;
    RaisesAtHead(sc, r, p);
    var x := sc.w.cohort[0];
    assert x in sc.w.cohort;
    FirstIs(sc, x);
    FirstLater(sc, x);
    FilterMembers(sc.q0.running, Outside(sc.w.cohort));
    EmptyOrMember(Outsiders(sc));
    NobodyBehind(sc, 0);
    CrowdedMeans(sc);
    hide Crowded, First, Outsiders, SceneOk;
  }

  lemma FirstLater(sc: Scene, x: string)
    requires SceneOk(sc) && x in sc.all
    ensures First(sc, x) == Later <==> MustWait(sc, x)
  {
  }

  lemma CrowdedMeans(sc: Scene)
    requires sc.w.cohort != []
    ensures Crowded(sc, 0) <==> exists y :: y in sc.w.cohort[1..] && y in sc.q0.running
  {
    NobodyBehind(sc, 0);
    if Crowded(sc, 0) {
      var j :| 0 < j < |sc.w.cohort| && sc.w.cohort[j] in sc.q0.running;
      assert sc.w.cohort[1..][j - 1] == sc.w.cohort[j];
    }
  }

  /** Every batch that admission builds is within the token budget. */
  lemma BatchWithinBudget(sc: Scene, r: Result, p: Plan)
    requires SceneOk(sc) && Steps(sc, r, p) && r.Planned? && !PreparedWindow(sc)
    ensures Load(sc.a, r.batch.scheduled) <= sc.budget
  {
    hide Steps, TokensOf, Load;
    LoadIsTokens(sc.a, r.batch.scheduled);
    AdmittedWithinBudget(sc, r, p);
  }

  /** Prepared groups are groups that are still there: what departed is forgotten, what was swapped out is not prepared,
      and a window boundary gives back all slots. */
  lemma WhatIsKept(l: Limits, budget: nat, keys: Places<string>, before: Plan, sc: Scene, r: Result, p: Plan)
    requires sc.all <= keys.Keys && StartsFrom(l, budget, keys, before, sc) && SceneOk(sc) && Steps(sc, r, p)
    ensures forall x :: x in p.prepared ==> x in sc.all
    ensures forall x :: x in before.prepared && x in sc.all ==> x in p.prepared || (r.Planned? && x in r.batch.outgoing)
    ensures forall x :: x in p.prepared && x !in before.prepared ==> x in p.q.running
    ensures (before.w.remaining == 0 || forall x :: x in before.w.cohort ==> x !in sc.all) ==>
      forall x :: x in p.reserved ==> x in p.q.running && HasBlocks(sc, x) && sc.a.appendAfter(x)
  {
    StartedAs(l, budget, keys, before, sc);
    hide StartsFrom, Steps, HasBlocks, Partition, WindowOk, Safe;
    WhoMoves(sc, r, p);
    StepIsSafe(sc, r, p);
    GroupsKnown(sc);
    if r.Planned? && r.batch.scheduled != [] {
      ScheduledRun(sc, r.batch, p);
    }
  }

  lemma StartedAs(l: Limits, budget: nat, keys: Places<string>, before: Plan, sc: Scene)
    requires sc.all <= keys.Keys && StartsFrom(l, budget, keys, before, sc)
    ensures sc.prepared0 == before.prepared * sc.all
    ensures (before.w.remaining == 0 || forall x :: x in before.w.cohort ==> x !in sc.all) ==> sc.reserved0 == {}
  {
    hide SelectsTo;
    assert (forall x :: x in before.w.cohort ==> x !in sc.all) ==> Members(before.w.cohort) * sc.all == {};
  }

  lemma GroupsKnown(sc: Scene)
    requires SceneOk(sc)
    ensures forall x :: x in sc.q0.swapped || x in sc.q0.running || x in sc.w.cohort ==> x in sc.all
  {
  }

  lemma ScheduledRun(sc: Scene, b: Batch, p: Plan)
    requires Safe(sc, b, p) && b.scheduled != []
    ensures forall x :: x in b.scheduled ==> x in p.w.cohort && x in p.q.running
  {
    hide Partition, Filter, Ordered, Joins;
    FilterMembers(p.w.cohort, Joins(sc));
    OrderedMembers(sc.a, Filter(p.w.cohort, Joins(sc)));
  }
}
