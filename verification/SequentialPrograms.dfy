/** Which programs the simulator treats as sequential. */
module SequentialPrograms {
  import opened Sequences
  import opened SimModel

  /** The calls of a program, in some order. */
  ghost predicate Lists(w: Workload, pid: nat, ids: seq<nat>) {
    NoDup(ids) && forall i :: i in ids <==> 0 <= i < |w.specs| && w.specs[i].pid == pid
  }

  /** The whole program is one chain: a root, and then every call has exactly the one before it as its parent. */
  ghost predicate IsLine(w: Workload, pid: nat, line: seq<nat>) {
    && Lists(w, pid, line) && line != []
    && Linked(w, line)
  }

  ghost predicate Linked(w: Workload, line: seq<nat>) {
    && (forall k :: 0 <= k < |line| ==> line[k] < |w.specs|)
    && (line != [] ==> w.specs[line[0]].parents == [])
    && (forall k :: 0 < k < |line| ==> w.specs[line[k]].parents == [line[k - 1]])
  }

  ghost predicate Straight(w: Workload, pid: nat) { exists line :: IsLine(w, pid, line) }

  function Parents(w: Workload, i: nat): seq<nat> { if i < |w.specs| then w.specs[i].parents else [] }

  function Roots(w: Workload, ids: seq<nat>): nat {
    if ids == [] then 0 else Roots(w, ids[..|ids| - 1]) + if Parents(w, ids[|ids| - 1]) == [] then 1 else 0
  }

  /** No two listed calls have the same only parent. */
  ghost predicate NoForks(w: Workload, ids: seq<nat>) {
    forall j, k :: 0 <= j < k < |ids| && |Parents(w, ids[j])| == |Parents(w, ids[k])| == 1 ==>
      Parents(w, ids[j]) != Parents(w, ids[k])
  }

  ghost predicate NoJoins(w: Workload, ids: seq<nat>) {
    forall k :: 0 <= k < |ids| ==> |Parents(w, ids[k])| <= 1
  }

  lemma {:induction false} RootsZero(w: Workload, ids: seq<nat>)
    ensures Roots(w, ids) == 0 <==> forall k :: 0 <= k < |ids| ==> Parents(w, ids[k]) != []
  {
    if ids != [] {
      RootsZero(w, ids[..|ids| - 1]);
    }
  }

  ghost predicate SoleRoot(w: Workload, ids: seq<nat>, r: nat) {
    r in ids && Parents(w, r) == [] && forall i :: i in ids && i != r ==> Parents(w, i) != []
  }

  lemma {:induction false} RootsOne(w: Workload, ids: seq<nat>)
    requires NoDup(ids)
    ensures Roots(w, ids) == 1 <==> exists r :: SoleRoot(w, ids, r)
  {
    if ids != [] {
      var n, front := ids[|ids| - 1], ids[..|ids| - 1];
      PopLast(ids);
      RootsOne(w, front);
      RootsZero(w, front);
      hide Roots, Parents;
      if Parents(w, n) == [] {
        LastRoot(w, ids);
      } else {
        forall r ensures SoleRoot(w, ids, r) <==> SoleRoot(w, front, r) {
        }
      }
    }
  }

  /** When the last call is a root, it is the only one exactly if there is none before it. */
  lemma LastRoot(w: Workload, ids: seq<nat>)
    requires NoDup(ids) && ids != [] && Parents(w, ids[|ids| - 1]) == []
    ensures var front := ids[..|ids| - 1]; (exists r :: SoleRoot(w, ids, r)) <==> forall k :: 0 <= k < |front| ==>
      Parents(w, front[k]) != []
  {
    hide Parents;
    var n, front := ids[|ids| - 1], ids[..|ids| - 1];
    PopLast(ids);
    if r :| SoleRoot(w, ids, r) {
      forall k | 0 <= k < |front| ensures Parents(w, front[k]) != [] {
        assert front[k] in ids && n in ids && front[k] != n && front[k] in front;
      }
    }
    if forall k :: 0 <= k < |front| ==> Parents(w, front[k]) != [] {
      assert SoleRoot(w, ids, n);
    }
  }

  lemma LineParents(w: Workload, line: seq<nat>, a: nat)
    requires Linked(w, line) && a < |line|
    ensures Parents(w, line[a]) == if a == 0 then [] else [line[a - 1]]
  {
  }

  lemma OnlyChild(w: Workload, ids: seq<nat>, x: nat, y: nat)
    requires NoForks(w, ids) && x in ids && y in ids
    requires |Parents(w, x)| == 1 && Parents(w, x) == Parents(w, y)
    ensures x == y
  {
    var a :| 0 <= a < |ids| && ids[a] == x;
    var b :| 0 <= b < |ids| && ids[b] == y;
    if a < b {} else if b < a {}
  }

  /** A chain has one root, no join and no fork. */
  lemma LineCounts(w: Workload, pid: nat, line: seq<nat>, ids: seq<nat>)
    requires IsLine(w, pid, line) && Lists(w, pid, ids)
    ensures NoJoins(w, ids) && NoForks(w, ids) && Roots(w, ids) == 1
  {
    forall k | 0 <= k < |ids| ensures |Parents(w, ids[k])| <= 1 {
      assert ids[k] in ids;
      var j :| 0 <= j < |line| && line[j] == ids[k];
      LineParents(w, line, j);
    }
    forall j, k | 0 <= j < k < |ids| && |Parents(w, ids[j])| == |Parents(w, ids[k])| == 1
      ensures Parents(w, ids[j]) != Parents(w, ids[k])
    {
      assert ids[j] in ids && ids[k] in ids;
      var a :| 0 <= a < |line| && line[a] == ids[j];
      var b :| 0 <= b < |line| && line[b] == ids[k];
      LineParents(w, line, a);
      LineParents(w, line, b);
      assert line[a - 1] != line[b - 1];
    }
    forall i | i in ids && i != line[0] ensures Parents(w, i) != [] {
      var a :| 0 <= a < |line| && line[a] == i;
      LineParents(w, line, a);
    }
    assert line[0] in line && line[0] in ids;
    LineParents(w, line, 0);
    assert SoleRoot(w, ids, line[0]);
    RootsOne(w, ids);
  }

  /** Some call outside the chain has its only parent at the end of the chain. */
  lemma {:induction false} NextInLine(w: Workload, pid: nat, rank: seq<nat>, ids: seq<nat>, line: seq<nat>, x: nat)
      returns (next: nat)
    requires ValidWorkload(w) && Ranked(w, rank) && Lists(w, pid, ids) && NoJoins(w, ids) && NoForks(w, ids)
    requires line != [] && NoDup(line) && Linked(w, line) && (forall i :: i in line ==> i in ids)
    requires forall i :: i in ids && i != line[0] ==> Parents(w, i) != []
    requires x in ids && x !in line
    ensures next in ids && next !in line && w.specs[next].parents == [line[|line| - 1]]
    decreases rank[x]
  {
    assert line[0] in line;
    OneParent(w, ids, x);
    var p := w.specs[x].parents[0];
    if p !in line {
      next := NextInLine(w, pid, rank, ids, line, p);
    } else {
      next := x;
      OnlyLastIsFree(w, ids, line, x, p);
    }
  }

  /** A child of a call of the chain is itself in the chain, unless its parent is the last one. */
  lemma OnlyLastIsFree(w: Workload, ids: seq<nat>, line: seq<nat>, x: nat, p: nat)
    requires NoForks(w, ids) && Linked(w, line) && (forall i :: i in line ==> i in ids)
    requires p in line && x in ids && Parents(w, x) == [p]
    ensures x in line || p == line[|line| - 1]
  {
    hide NoForks;
    var k :| 0 <= k < |line| && line[k] == p;
    if k < |line| - 1 {
      assert line[k + 1] in line;
      LineParents(w, line, k + 1);
      OnlyChild(w, ids, x, line[k + 1]);
    }
  }

  lemma OneParent(w: Workload, ids: seq<nat>, x: nat)
    requires NoJoins(w, ids) && x in ids && Parents(w, x) != []
    ensures |Parents(w, x)| == 1
  {
    var a :| 0 <= a < |ids| && ids[a] == x;
  }

  lemma LineGrows(w: Workload, ids: seq<nat>, line: seq<nat>, next: nat)
    requires NoDup(ids) && NoDup(line) && line != [] && Linked(w, line) && (forall i :: i in line ==> i in ids)
    requires next in ids && next !in line && next < |w.specs| && w.specs[next].parents == [line[|line| - 1]]
    ensures NoDup(line + [next]) && Linked(w, line + [next]) && (forall i :: i in line + [next] ==> i in ids)
    ensures |line| < |ids|
  {
    NoDupSubLength(line + [next], ids);
  }

  lemma {:induction false} GrowLine(w: Workload, pid: nat, rank: seq<nat>, ids: seq<nat>, line: seq<nat>)
      returns (whole: seq<nat>)
    requires ValidWorkload(w) && Ranked(w, rank) && Lists(w, pid, ids) && NoJoins(w, ids) && NoForks(w, ids)
    requires line != [] && NoDup(line) && Linked(w, line) && (forall i :: i in line ==> i in ids)
    requires forall i :: i in ids && i != line[0] ==> Parents(w, i) != []
    ensures IsLine(w, pid, whole)
    decreases |ids| - |line|
  {
    hide NoJoins, NoForks, Linked, Ranked, ValidWorkload, NoDup;
    if x :| x in ids && x !in line {
      var next := NextInLine(w, pid, rank, ids, line, x);
      LineGrows(w, ids, line, next);
      whole := GrowLine(w, pid, rank, ids, line + [next]);
    } else {
      whole := line;
    }
  }

  lemma CountsLine(w: Workload, pid: nat, ids: seq<nat>)
    requires ValidWorkload(w) && Lists(w, pid, ids) && NoJoins(w, ids) && NoForks(w, ids) && Roots(w, ids) == 1
    ensures Straight(w, pid)
  {
    RootsOne(w, ids);
    hide NoJoins, NoForks, Roots;
    var root :| SoleRoot(w, ids, root);
    var rank: seq<nat> :| Ranked(w, rank);
    var line := GrowLine(w, pid, rank, ids, [root]);
  }

  /** Every child count is the number of seen calls under that parent, and none exceeds one. */
  ghost predicate ChildCounts(w: Workload, seen: seq<nat>, children: map<nat, nat>) {
    forall p :: p in children ==>
      && children[p] <= 1
      && (children[p] == 1 <==> exists k :: 0 <= k < |seen| && Parents(w, seen[k]) == [p])
  }

  lemma CountChild(w: Workload, seen: seq<nat>, children: map<nat, nat>, i: nat, p: nat)
    requires NoJoins(w, seen) && NoForks(w, seen) && ChildCounts(w, seen, children)
    requires Parents(w, i) == [p] && p in children
    ensures children[p] == 0 ==>
      ChildCounts(w, seen + [i], children[p := 1]) && NoJoins(w, seen + [i]) && NoForks(w, seen + [i])
    ensures children[p] == 1 ==> !NoForks(w, seen + [i])
  {
    var next := seen + [i];
    assert next[|seen|] == i;
    if children[p] == 1 {
      var k :| 0 <= k < |seen| && Parents(w, seen[k]) == [p];
      assert next[k] == seen[k];
    } else {
      forall q | q in children
        ensures children[p := 1][q] == 1 <==> exists k :: 0 <= k < |next| && Parents(w, next[k]) == [q]
      {
        if children[q] == 1 {
          var k :| 0 <= k < |seen| && Parents(w, seen[k]) == [q];
          assert next[k] == seen[k];
        }
      }
    }
  }

  lemma PrefixForks(w: Workload, ids: seq<nat>, k: nat)
    requires k <= |ids| && NoForks(w, ids)
    ensures NoForks(w, ids[..k])
  {
  }

  /** `is_sequential_program`: one pass that counts the roots and the children of every call. */
  method IsSequential(w: Workload, pid: nat, ids: seq<nat>) returns (sequential: bool)
    requires ValidWorkload(w) && Lists(w, pid, ids)
    ensures sequential <==> Straight(w, pid)
  {
    hide NoForks, NoJoins, ChildCounts, Roots, ValidWorkload, IsLine, Straight;
    if ids == [] {
      EmptyIsBent(w, pid);
      return false;
    }
    var children: map<nat, nat> := map i | i in ids :: 0;
    var roots := 0;
    NothingSeen(w, children);
    assert ids[..0] == [];
    for k := 0 to |ids|
      invariant forall i :: i in children <==> i in ids
      invariant NoJoins(w, ids[..k]) && NoForks(w, ids[..k]) && ChildCounts(w, ids[..k], children)
      invariant roots == Roots(w, ids[..k])
    {
      TakeMore(ids, k);
      assert ids[k] in ids;
      var parents := w.specs[ids[k]].parents;
      if parents == [] {
        roots := roots + 1;
      }
      RootsStep(w, ids[..k], ids[k]);
      if |parents| > 1 {
        JoinIsBent(w, pid, ids, k);
        return false;
      }
      if |parents| == 1 {
        ParentListed(w, pid, ids, k);
        CountChild(w, ids[..k], children, ids[k], parents[0]);
        CountBound(w, ids[..k], children, parents[0]);
        children := children[parents[0] := children[parents[0]] + 1];
        if children[parents[0]] > 1 {
          ForkIsBent(w, pid, ids, k + 1);
          return false;
        }
      } else {
        RootSeen(w, ids[..k], children, ids[k]);
      }
    }
    TakeAll(ids);
    sequential := roots == 1;
    FinalCount(w, pid, ids);
  }

  lemma FinalCount(w: Workload, pid: nat, ids: seq<nat>)
    requires ValidWorkload(w) && Lists(w, pid, ids) && NoJoins(w, ids) && NoForks(w, ids)
    ensures Straight(w, pid) <==> Roots(w, ids) == 1
  {
    hide NoForks, NoJoins, Roots, ValidWorkload, IsLine;
    if Roots(w, ids) == 1 {
      CountsLine(w, pid, ids);
    }
    if line :| IsLine(w, pid, line) {
      LineCounts(w, pid, line, ids);
    }
  }

  lemma NothingSeen(w: Workload, children: map<nat, nat>)
    requires forall p :: p in children ==> children[p] == 0
    ensures NoJoins(w, []) && NoForks(w, []) && ChildCounts(w, [], children) && Roots(w, []) == 0
  {
  }

  lemma EmptyIsBent(w: Workload, pid: nat)
    requires Lists(w, pid, [])
    ensures !Straight(w, pid)
  {
    forall line ensures !IsLine(w, pid, line) {
      if line != [] { assert line[0] in line && line[0] !in []; }
    }
  }

  lemma RootsStep(w: Workload, seen: seq<nat>, i: nat)
    ensures Roots(w, seen + [i]) == Roots(w, seen) + if Parents(w, i) == [] then 1 else 0
  {
    assert (seen + [i])[..|seen|] == seen;
  }

  lemma RootSeen(w: Workload, seen: seq<nat>, children: map<nat, nat>, i: nat)
    requires NoJoins(w, seen) && NoForks(w, seen) && ChildCounts(w, seen, children) && Parents(w, i) == []
    ensures NoJoins(w, seen + [i]) && NoForks(w, seen + [i]) && ChildCounts(w, seen + [i], children)
  {
    var next := seen + [i];
    forall q | q in children
      ensures children[q] == 1 <==> exists k :: 0 <= k < |next| && Parents(w, next[k]) == [q]
    {
      if children[q] == 1 {
        var k :| 0 <= k < |seen| && Parents(w, seen[k]) == [q];
        assert next[k] == seen[k];
      }
    }
  }

  lemma CountBound(w: Workload, seen: seq<nat>, children: map<nat, nat>, p: nat)
    requires ChildCounts(w, seen, children) && p in children
    ensures children[p] <= 1
  {
  }

  lemma ParentListed(w: Workload, pid: nat, ids: seq<nat>, k: nat)
    requires ValidWorkload(w) && Lists(w, pid, ids) && k < |ids|
    ensures ids[k] < |w.specs| && forall j :: 0 <= j < |w.specs[ids[k]].parents| ==> w.specs[ids[k]].parents[j] in ids
  {
    assert ids[k] in ids;
  }

  lemma JoinIsBent(w: Workload, pid: nat, ids: seq<nat>, k: nat)
    requires Lists(w, pid, ids) && k < |ids| && |Parents(w, ids[k])| > 1
    ensures !Straight(w, pid)
  {
    forall line ensures !IsLine(w, pid, line) {
      if IsLine(w, pid, line) { LineCounts(w, pid, line, ids); }
    }
  }

  lemma ForkIsBent(w: Workload, pid: nat, ids: seq<nat>, k: nat)
    requires Lists(w, pid, ids) && k <= |ids| && !NoForks(w, ids[..k])
    ensures !Straight(w, pid)
  {
    forall line ensures !IsLine(w, pid, line) {
      if IsLine(w, pid, line) {
        LineCounts(w, pid, line, ids);
        PrefixForks(w, ids, k);
      }
    }
  }
}
