/** Dependency graphs: cycle checks and heaviest paths. */
module Dag {
  import opened Sequences

  /** The parents of every node, possibly with repetitions. */
  type Graph<!N> = map<N, seq<N>>

  ghost predicate Closed<N>(g: Graph<N>) {
    forall n, k :: n in g && 0 <= k < |g[n]| ==> g[n][k] in g
  }

  /** A topological order: every parent ranks below its child. */
  ghost predicate Ranked<N>(g: Graph<N>, rank: map<N, nat>) {
    && rank.Keys == g.Keys
    && (forall n, k :: n in g && 0 <= k < |g[n]| ==> g[n][k] in rank && rank[g[n][k]] < rank[n])
  }

  ghost predicate Acyclic<N(!new)>(g: Graph<N>) { exists rank :: Ranked(g, rank) }

  /** A nonempty set of nodes that each have a parent inside the set rules out every topological order. */
  lemma TrappedIsCyclic<N(!new)>(g: Graph<N>, trapped: set<N>)
    requires trapped != {} && trapped <= g.Keys
    requires forall n :: n in trapped ==> exists k :: 0 <= k < |g[n]| && g[n][k] in trapped
    ensures !Acyclic(g)
  {
    forall rank: map<N, nat> ensures !Ranked(g, rank) {
      if Ranked(g, rank) {
        var n :| n in trapped;
        Descend(g, rank, trapped, n);
      }
    }
  }

  lemma {:induction false} Descend<N>(g: Graph<N>, rank: map<N, nat>, trapped: set<N>, n: N)
    requires Ranked(g, rank) && trapped <= g.Keys && n in trapped
    requires forall n :: n in trapped ==> exists k :: 0 <= k < |g[n]| && g[n][k] in trapped
    ensures false
    decreases rank[n]
  {
    var k :| 0 <= k < |g[n]| && g[n][k] in trapped;
    Descend(g, rank, trapped, g[n][k]);
  }

  // ---- The worklist check ----------------------------------------------------------

  function Occurrences<N(==)>(s: seq<N>, x: N): nat {
    if s == [] then 0 else Occurrences(s[..|s| - 1], x) + if s[|s| - 1] == x then 1 else 0
  }

  /** Parent entries that are not yet in `done`. */
  function Open<N(==)>(parents: seq<N>, done: set<N>): nat {
    if parents == [] then 0 else Open(parents[..|parents| - 1], done) + if parents[|parents| - 1] in done then 0 else 1
  }

  lemma {:induction false} OpenZero<N>(parents: seq<N>, done: set<N>)
    ensures Open(parents, done) == 0 <==> forall k :: 0 <= k < |parents| ==> parents[k] in done
  {
    if parents != [] {
      OpenZero(parents[..|parents| - 1], done);
    }
  }

  lemma {:induction false} OpenAll<N>(parents: seq<N>)
    ensures Open(parents, {}) == |parents|
  {
    if parents != [] {
      OpenAll(parents[..|parents| - 1]);
    }
  }

  lemma {:induction false} OpenStep<N>(parents: seq<N>, done: set<N>, v: N)
    requires v !in done
    ensures Open(parents, done + {v}) == Open(parents, done) - Occurrences(parents, v)
  {
    if parents != [] {
      OpenStep(parents[..|parents| - 1], done, v);
    }
  }

  lemma {:induction false} OccursPrefix<N>(s: seq<N>, j: nat, x: N)
    requires j <= |s|
    ensures Occurrences(s[..j], x) <= Occurrences(s, x)
    decreases |s|
  {
    if j == |s| {
      assert s[..j] == s;
    } else {
      OccursPrefix(s[..|s| - 1], j, x);
      assert s[..|s| - 1][..j] == s[..j];
    }
  }

  /** The child lists of the first `k` calls: one entry per parent entry, in the order of the calls. */
  ghost predicate ChildrenOf<N(!new)>(g: Graph<N>, seen: seq<N>, children: map<N, seq<N>>) {
    && children.Keys == g.Keys
    && (forall p, c :: p in g && c in g ==>
          Occurrences(children[p], c) == if c in seen then Occurrences(g[c], p) else 0)
  }

  lemma OccursAppend<N>(s: seq<N>, x: N, y: N)
    ensures Occurrences(s + [y], x) == Occurrences(s, x) + if x == y then 1 else 0
  {
    assert (s + [y])[..|s|] == s;
  }

  ghost predicate Known<N(!new)>(g: Graph<N>, children: map<N, seq<N>>) {
    children.Keys == g.Keys && forall p :: p in children ==> forall c :: c in children[p] ==> c in g
  }

  ghost function Extra<N(!new)>(parents: seq<N>, c: N, d: N, p: N): nat {
    if d == c then Occurrences(parents, p) else 0
  }

  /** `c` was entered once for every entry of `parents`. */
  ghost predicate Entered<N(!new)>(g: Graph<N>, before: map<N, seq<N>>, after: map<N, seq<N>>, c: N, parents: seq<N>) {
    && Known(g, before) && Known(g, after)
    && forall p, d :: p in g && d in g ==>
       Occurrences(after[p], d) == Occurrences(before[p], d) + Extra(parents, c, d, p)
  }

  lemma EnterOne<N(!new)>(g: Graph<N>, before: map<N, seq<N>>, after: map<N, seq<N>>, c: N, parents: seq<N>, p: N)
    requires Entered(g, before, after, c, parents) && p in g && c in g
    ensures Entered(g, before, after[p := after[p] + [c]], c, parents + [p])
  {
    hide Occurrences;
    forall q, d | q in g && d in g
      ensures Extra(parents + [p], c, d, q) == Extra(parents, c, d, q) + if d == c && q == p then 1 else 0
      ensures Occurrences(after[p] + [c], d) == Occurrences(after[p], d) + if d == c then 1 else 0
    {
      OccursAppend(parents, q, p);
      OccursAppend(after[p], d, c);
    }
  }

  lemma EnteredNone<N(!new)>(g: Graph<N>, before: map<N, seq<N>>, c: N)
    requires Known(g, before)
    ensures Entered(g, before, before, c, [])
  {
  }

  /** Enter one call in the child lists of its parents. */
  method AddChild<N(==, !new)>(g: Graph<N>, before: map<N, seq<N>>, c: N) returns (children: map<N, seq<N>>)
    requires Closed(g) && c in g && Known(g, before)
    ensures Entered(g, before, children, c, g[c])
  {
    hide Entered;
    children := before;
    EnteredNone(g, before, c);
    for k := 0 to |g[c]|
      invariant children.Keys == g.Keys && Entered(g, before, children, c, g[c][..k])
    {
      var p := g[c][k];
      TakeMore(g[c], k);
      EnterOne(g, before, children, c, g[c][..k], p);
      children := children[p := children[p] + [c]];
    }
    TakeAll(g[c]);
  }

  lemma ChildrenStep<N(!new)>(g: Graph<N>, seen: seq<N>, c: N, before: map<N, seq<N>>, after: map<N, seq<N>>)
    requires ChildrenOf(g, seen, before) && c in g && c !in seen && Entered(g, before, after, c, g[c])
    ensures Known(g, after) && ChildrenOf(g, seen + [c], after)
  {
    hide Occurrences;
  }

  method ChildLists<N(==, !new)>(order: seq<N>, g: Graph<N>) returns (children: map<N, seq<N>>)
    requires NoDup(order) && Closed(g) && (forall n :: n in order <==> n in g)
    ensures Known(g, children) && ChildrenOf(g, order, children)
  {
    hide Occurrences, ChildrenOf;
    children := map n | n in g :: [];
    NoChildrenYet(g, children);
    for i := 0 to |order|
      invariant Known(g, children) && ChildrenOf(g, order[..i], children)
    {
      var c := order[i];
      TakeMore(order, i);
      assert c in order && c !in order[..i];
      ghost var before := children;
      children := AddChild(g, children, c);
      ChildrenStep(g, order[..i], c, before, children);
    }
    TakeAll(order);
  }

  lemma NoChildrenYet<N(!new)>(g: Graph<N>, children: map<N, seq<N>>)
    requires children.Keys == g.Keys && forall n :: n in g ==> children[n] == []
    ensures ChildrenOf(g, [], children)
  {
  }

  // ---- Kahn's algorithm --------------------------------------------------------------

  /** The worklist between two pops: every pending degree counts the parent entries still open,
      and the list holds exactly the unpopped nodes of degree zero. */
  ghost predicate Worklist<N(!new)>(g: Graph<N>, degree: map<N, int>, ready: seq<N>, popped: set<N>) {
    && degree.Keys == g.Keys && popped <= g.Keys
    && (forall n :: n in g ==> degree[n] == Open(g[n], popped))
    && NoDup(ready) && (forall n :: n in ready <==> n in g && n !in popped && degree[n] == 0)
  }

  /** The worklist right after `v` was popped from it; `kids` lists the children of `v`. */
  ghost predicate Popped<N(!new)>(g: Graph<N>, degree: map<N, int>, ready: seq<N>, popped: set<N>, v: N, kids: seq<N>) {
    && v in g && v !in popped && v !in ready
    && degree.Keys == g.Keys && popped <= g.Keys
    && (forall n :: n in g ==> degree[n] == Open(g[n], popped))
    && NoDup(ready) && (forall n :: n in ready <==> n in g && n !in popped && n != v && degree[n] == 0)
    && degree[v] == 0 && (forall n :: n in popped ==> degree[n] == 0)
    && (forall n :: n in kids ==> n in g) && (forall n :: n in g ==> Occurrences(kids, n) == Occurrences(g[n], v))
  }

  /** Close the entries of `v` in all its children, and append the children that became ready. */
  method CloseParent<N(==, !new)>(g: Graph<N>, degree0: map<N, int>, ready0: seq<N>, v: N, kids: seq<N>,
                       ghost popped: set<N>) returns (degree: map<N, int>, ready: seq<N>)
    requires Popped(g, degree0, ready0, popped, v, kids)
    ensures Worklist(g, degree, ready, popped + {v})
  {
    degree, ready := degree0, ready0;
    for j := 0 to |kids|
      invariant degree.Keys == g.Keys
      invariant forall n :: n in g ==> degree[n] == degree0[n] - Occurrences(kids[..j], n)
      invariant NoDup(ready) && (forall n :: n in ready <==> n in g && n !in popped && n != v && degree[n] == 0)
    {
      var kid := kids[j];
      assert kids[..j + 1] == kids[..j] + [kid];
      forall n | n in g ensures Occurrences(kids[..j + 1], n) == Occurrences(kids[..j], n) + if n == kid then 1 else 0 {
        OccursAppend(kids[..j], n, kid);
      }
      OccursPrefix(kids, j + 1, kid);
      OpenStep(g[kid], popped, v);
      degree := degree[kid := degree[kid] - 1];
      if degree[kid] == 0 {
        ready := ready + [kid];
      }
    }
    assert kids[..|kids|] == kids;
    forall n | n in g ensures degree[n] == Open(g[n], popped + {v}) {
      OpenStep(g[n], popped, v);
    }
  }

  /** The visited nodes, ranked by the order of their visits. */
  ghost predicate Visits<N(!new)>(g: Graph<N>, popped: set<N>, rank: map<N, nat>, visited: nat) {
    && |popped| == visited && rank.Keys == popped && popped <= g.Keys
    && (forall n, k :: n in popped && 0 <= k < |g[n]| ==> g[n][k] in popped && rank[g[n][k]] < rank[n])
    && (forall n :: n in popped ==> rank[n] < visited)
  }

  lemma VisitOne<N(!new)>(g: Graph<N>, degree: map<N, int>, ready: seq<N>, popped: set<N>, rank: map<N, nat>,
                   visited: nat, v: N)
    requires Worklist(g, degree, ready, popped) && Visits(g, popped, rank, visited) && v in ready
    ensures Visits(g, popped + {v}, rank[v := visited], visited + 1)
    ensures v in g && v !in popped && degree[v] == 0 && (forall n :: n in popped ==> degree[n] == 0)
  {
    OpenZero(g[v], popped);
    PoppedClosed(g, degree, popped);
  }

  lemma PopReady<N(!new)>(g: Graph<N>, order: seq<N>, children: map<N, seq<N>>, degree: map<N, int>, ready: seq<N>,
                   popped: set<N>, rank: map<N, nat>, visited: nat)
    requires Known(g, children) && ChildrenOf(g, order, children) && (forall n :: n in order <==> n in g)
    requires Worklist(g, degree, ready, popped) && Visits(g, popped, rank, visited) && ready != []
    ensures var v, rest := ready[|ready| - 1], ready[..|ready| - 1];
      && v in children && Popped(g, degree, rest, popped, v, children[v])
      && Visits(g, popped + {v}, rank[v := visited], visited + 1)
      && popped < popped + {v} <= g.Keys
  {
    hide Occurrences, Open, Visits;
    PopLast(ready);
    VisitOne(g, degree, ready, popped, rank, visited, ready[|ready| - 1]);
  }

  lemma FirstReady<N(!new)>(order: seq<N>, g: Graph<N>, degree: map<N, int>, ready: seq<N>)
    requires NoDup(order) && (forall n :: n in order <==> n in g)
    requires degree.Keys == g.Keys && forall n :: n in g ==> degree[n] == |g[n]|
    requires ready == Filter(order, Rootlike(g))
    ensures Worklist(g, degree, ready, {})
  {
    forall n | n in g ensures degree[n] == Open(g[n], {}) {
      OpenAll(g[n]);
    }
    FilterMembers(order, Rootlike(g));
  }

  function Rootlike<N>(g: Graph<N>): N -> bool { n => n in g && |g[n]| == 0 }

  /** Visit nodes whose parents have all been visited, newest ready node first, and count the visits. */
  method Kahn<N(==, !new)>(order: seq<N>, g: Graph<N>) returns (visited: nat)
    requires NoDup(order) && Closed(g) && (forall n :: n in order <==> n in g)
    ensures visited == |order| <==> Acyclic(g)
  {
    hide *;
    var children := ChildLists(order, g);
    var degree: map<N, int> := map n | n in g :: |g[n]|;
    var ready := Filter(order, Rootlike(g));
    visited := 0;
    ghost var popped: set<N> := {};
    ghost var rank: map<N, nat> := map[];
    FirstReady(order, g, degree, ready);
    FirstVisits(g, rank);
    while ready != []
      invariant Worklist(g, degree, ready, popped) && Visits(g, popped, rank, visited)
      decreases g.Keys - popped
    {
      var v := ready[|ready| - 1];
      PopReady(g, order, children, degree, ready, popped, rank, visited);
      degree, ready := CloseParent(g, degree, ready[..|ready| - 1], v, children[v], popped);
      rank := rank[v := visited];
      popped := popped + {v};
      visited := visited + 1;
    }
    Verdict(order, g, degree, popped, rank, visited);
  }

  lemma FirstVisits<N(!new)>(g: Graph<N>, rank: map<N, nat>)
    requires rank == map[]
    ensures Visits(g, {}, rank, 0)
  {
  }

  lemma PoppedClosed<N(!new)>(g: Graph<N>, degree: map<N, int>, popped: set<N>)
    requires degree.Keys == g.Keys && popped <= g.Keys && forall n :: n in g ==> degree[n] == Open(g[n], popped)
    requires forall n, k :: n in popped && 0 <= k < |g[n]| ==> g[n][k] in popped
    ensures forall n :: n in popped ==> degree[n] == 0
  {
    forall n | n in popped ensures degree[n] == 0 {
      OpenZero(g[n], popped);
    }
  }

  /** When the worklist runs dry, either everything was visited in topological order or the rest is trapped. */
  lemma Verdict<N(!new)>(order: seq<N>, g: Graph<N>, degree: map<N, int>, popped: set<N>, rank: map<N, nat>,
                  visited: nat)
    requires NoDup(order) && Closed(g) && (forall n :: n in order <==> n in g)
    requires Worklist(g, degree, [], popped) && Visits(g, popped, rank, visited)
    ensures visited == |order| <==> Acyclic(g)
  {
    NoDupCard(order);
    assert (set n | n in order) == g.Keys;
    if popped == g.Keys {
      assert Ranked(g, rank);
    } else {
      ProperCard(popped, g.Keys);
      LeftoverTrapped(g, degree, popped);
    }
  }

  lemma LeftoverTrapped<N(!new)>(g: Graph<N>, degree: map<N, int>, popped: set<N>)
    requires Closed(g) && Worklist(g, degree, [], popped) && popped != g.Keys
    ensures !Acyclic(g)
  {
    hide Acyclic;
    var trapped := g.Keys - popped;
    forall n | n in trapped ensures exists k :: 0 <= k < |g[n]| && g[n][k] in trapped {
      OpenZero(g[n], popped);
    }
    TrappedIsCyclic(g, trapped);
  }

  lemma ProperCard<N>(a: set<N>, b: set<N>)
    requires a < b
    ensures |a| < |b|
  {
    assert b == a + (b - a) && b - a != {};
  }

  // ---- The ready-set check -----------------------------------------------------------

  ghost predicate Rounds<N(!new)>(g: Graph<N>, ready: set<N>, rank: map<N, nat>, round: nat) {
    && rank.Keys == ready && ready <= g.Keys
    && (forall n, k :: n in ready && 0 <= k < |g[n]| ==> g[n][k] in ready && rank[g[n][k]] < rank[n])
    && (forall n :: n in ready ==> rank[n] < round)
  }

  predicate Grounded<N(==)>(g: Graph<N>, ready: set<N>, n: N) {
    n in g && forall k :: 0 <= k < |g[n]| ==> g[n][k] in ready
  }

  lemma NextRound<N(!new)>(g: Graph<N>, ready: set<N>, rank: map<N, nat>, round: nat, grown: set<N>)
    requires Rounds(g, ready, rank, round)
    requires grown == (set n | n in g && Grounded(g, ready, n)) - ready
    ensures Rounds(g, ready + grown, rank + (map n | n in grown :: round), round + 1)
  {
  }

  lemma EmptyDifference<N>(a: set<N>, b: set<N>)
    requires a - b == {}
    ensures a <= b
  {
    forall n | n in a ensures n in b {
      assert n !in a - b;
    }
  }

  lemma HeldBack<N>(g: Graph<N>, ready: set<N>, n: N)
    requires Closed(g) && n in g && !Grounded(g, ready, n)
    ensures exists k :: 0 <= k < |g[n]| && g[n][k] in g.Keys - ready
  {
    var k :| 0 <= k < |g[n]| && g[n][k] !in ready;
    assert g[n][k] in g.Keys - ready;
  }

  lemma StuckIsCyclic<N(!new)>(g: Graph<N>, ready: set<N>, ground: set<N>)
    requires Closed(g) && ready <= g.Keys && |ready| < |g.Keys|
    requires ground == (set n | n in g && Grounded(g, ready, n)) && ground - ready == {}
    ensures !Acyclic(g)
  {
    hide Acyclic, Grounded, Closed;
    EmptyDifference(ground, ready);
    forall n | n in g.Keys - ready ensures exists k :: 0 <= k < |g[n]| && g[n][k] in g.Keys - ready {
      assert n !in ground;
      HeldBack(g, ready, n);
    }
    assert g.Keys == ready + (g.Keys - ready);
    TrappedIsCyclic(g, g.Keys - ready);
  }

  /** Grow the set of resolved calls until it stops growing; accept if it holds every call. */
  method ReadyRounds<N(==, !new)>(order: seq<N>, g: Graph<N>) returns (accepted: bool)
    requires NoDup(order) && Closed(g) && (forall n :: n in order <==> n in g)
    ensures accepted <==> Acyclic(g)
  {
    var ready: set<N> := {};
    ghost var rank: map<N, nat>, round := map[], 0;
    NoDupCard(order);
    assert (set n | n in order) == g.Keys;
    while |ready| < |order|
      invariant Rounds(g, ready, rank, round)
      decreases g.Keys - ready
    {
      var grown := (set n | n in g && Grounded(g, ready, n)) - ready;
      if grown == {} {
        StuckIsCyclic(g, ready, set n | n in g && Grounded(g, ready, n));
        return false;
      }
      NextRound(g, ready, rank, round, grown);
      rank := rank + (map n | n in grown :: round);
      ready, round := ready + grown, round + 1;
    }
    WholeSet(ready, g.Keys);
    assert Ranked(g, rank);
    return true;
  }

  lemma WholeSet<N>(a: set<N>, b: set<N>)
    requires a <= b && |a| >= |b|
    ensures a == b
  {
    if a != b { ProperCard(a, b); }
  }

  // ---- Heaviest paths ----------------------------------------------------------------

  /** The weight of the heaviest path that ends at `n`. */
  function Longest<N>(g: Graph<N>, rank: map<N, nat>, weight: map<N, int>, n: N): int
    requires Closed(g) && Ranked(g, rank) && weight.Keys == g.Keys && n in g
    decreases rank[n], |g[n]| + 1
  {
    weight[n] + Heaviest(g, rank, weight, n, |g[n]|)
  }

  /** The heaviest path that ends at one of the first `k` parents of `n`; zero if there is none. */
  function Heaviest<N>(g: Graph<N>, rank: map<N, nat>, weight: map<N, int>, n: N, k: nat): int
    requires Closed(g) && Ranked(g, rank) && weight.Keys == g.Keys && n in g && k <= |g[n]|
    decreases rank[n], k
  {
    if k == 0 then 0
    else if k == 1 then Longest(g, rank, weight, g[n][0])
    else Max(Heaviest(g, rank, weight, n, k - 1), Longest(g, rank, weight, g[n][k - 1]))
  }

  /** A path: every node is a parent of the next. */
  ghost predicate IsPath<N>(g: Graph<N>, path: seq<N>) {
    && path != []
    && (forall k :: 0 <= k < |path| ==> path[k] in g)
    && (forall k :: 0 < k < |path| ==> path[k - 1] in g[path[k]])
  }

  function PathWeight<N>(weight: map<N, int>, path: seq<N>): int
    requires forall k :: 0 <= k < |path| ==> path[k] in weight
  {
    if path == [] then 0 else PathWeight(weight, path[..|path| - 1]) + weight[path[|path| - 1]]
  }

  lemma {:induction false} HeaviestCovers<N>(g: Graph<N>, rank: map<N, nat>, weight: map<N, int>, n: N, k: nat, j: nat)
    requires Closed(g) && Ranked(g, rank) && weight.Keys == g.Keys && n in g && j < k <= |g[n]|
    ensures Longest(g, rank, weight, g[n][j]) <= Heaviest(g, rank, weight, n, k)
  {
    if j < k - 1 {
      HeaviestCovers(g, rank, weight, n, k - 1, j);
    }
  }

  lemma {:induction false} HeaviestAttained<N>(g: Graph<N>, rank: map<N, nat>, weight: map<N, int>, n: N, k: nat)
      returns (j: nat)
    requires Closed(g) && Ranked(g, rank) && weight.Keys == g.Keys && n in g && 0 < k <= |g[n]|
    ensures j < k && Longest(g, rank, weight, g[n][j]) == Heaviest(g, rank, weight, n, k)
  {
    if k > 1 && Heaviest(g, rank, weight, n, k) != Longest(g, rank, weight, g[n][k - 1]) {
      j := HeaviestAttained(g, rank, weight, n, k - 1);
    } else {
      j := k - 1;
    }
  }

  lemma {:induction false} HeaviestNonNegative<N>(g: Graph<N>, rank: map<N, nat>, weight: map<N, int>, n: N, k: nat)
    requires Closed(g) && Ranked(g, rank) && weight.Keys == g.Keys && n in g && k <= |g[n]|
    requires forall m :: m in weight ==> weight[m] >= 0
    ensures Heaviest(g, rank, weight, n, k) >= 0
    decreases rank[n], k
  {
    if k > 0 {
      HeaviestNonNegative(g, rank, weight, g[n][k - 1], |g[g[n][k - 1]]|);
      HeaviestNonNegative(g, rank, weight, n, k - 1);
    }
  }

  /** No path that ends at `n` is heavier than `Longest`. */
  lemma {:induction false} LongestBounds<N>(g: Graph<N>, rank: map<N, nat>, weight: map<N, int>, path: seq<N>)
    requires Closed(g) && Ranked(g, rank) && weight.Keys == g.Keys
    requires forall m :: m in weight ==> weight[m] >= 0
    requires IsPath(g, path)
    ensures PathWeight(weight, path) <= Longest(g, rank, weight, path[|path| - 1])
  {
    var n, front := path[|path| - 1], path[..|path| - 1];
    if front == [] {
      HeaviestNonNegative(g, rank, weight, n, |g[n]|);
    } else {
      LongestBounds(g, rank, weight, front);
      var j :| 0 <= j < |g[n]| && g[n][j] == path[|path| - 2];
      HeaviestCovers(g, rank, weight, n, |g[n]|, j);
    }
  }

  /** Some path that ends at `n` weighs exactly `Longest`. */
  lemma {:induction false} LongestAttained<N>(g: Graph<N>, rank: map<N, nat>, weight: map<N, int>, n: N)
      returns (path: seq<N>)
    requires Closed(g) && Ranked(g, rank) && weight.Keys == g.Keys && n in g
    ensures IsPath(g, path) && path[|path| - 1] == n && PathWeight(weight, path) == Longest(g, rank, weight, n)
    decreases rank[n]
  {
    if g[n] == [] {
      path := [n];
      assert path[..0] == [];
    } else {
      var j := HeaviestAttained(g, rank, weight, n, |g[n]|);
      var front := LongestAttained(g, rank, weight, g[n][j]);
      path := front + [n];
      assert path[..|path| - 1] == front;
    }
  }

  /** The calls resolved so far carry their heaviest paths. */
  ghost predicate Settled<N>(g: Graph<N>, rank: map<N, nat>, weight: map<N, int>, critical: map<N, int>)
    requires Closed(g) && Ranked(g, rank) && weight.Keys == g.Keys
  {
    critical.Keys <= g.Keys && forall n :: n in critical ==> critical[n] == Longest(g, rank, weight, n)
  }

  predicate Resolvable<N(==)>(g: Graph<N>, critical: map<N, int>, n: N) {
    n in g && forall k :: 0 <= k < |g[n]| ==> g[n][k] in critical
  }

  /** `max(critical of the parents, default 0) + weight`. */
  method ResolveOne<N(==)>(g: Graph<N>, weight: map<N, int>, before: map<N, int>, n: N, ghost rank: map<N, nat>)
      returns (critical: map<N, int>)
    requires Closed(g) && Ranked(g, rank) && weight.Keys == g.Keys
    requires Settled(g, rank, weight, before) && Resolvable(g, before, n)
    ensures critical.Keys == before.Keys + {n} && Settled(g, rank, weight, critical)
  {
    var best := 0;
    for k := 0 to |g[n]|
      invariant best == Heaviest(g, rank, weight, n, k)
    {
      best := if k == 0 then before[g[n][0]] else Max(best, before[g[n][k]]);
    }
    critical := before[n := best + weight[n]];
  }

  /** What is unresolved, and what one pass over a snapshot of it still has to look at. */
  ghost predicate Unresolved<N(!new)>(g: Graph<N>, critical: map<N, int>, unresolved: seq<N>) {
    NoDup(unresolved) && (forall n :: n in unresolved <==> n in g && n !in critical)
  }

  lemma ResolveStep<N(!new)>(g: Graph<N>, critical: map<N, int>, unresolved: seq<N>, n: N, critical': map<N, int>)
    requires Unresolved(g, critical, unresolved) && n in unresolved && critical'.Keys == critical.Keys + {n}
    ensures Unresolved(g, critical', Without(unresolved, n)) && |Without(unresolved, n)| < |unresolved|
    ensures forall m :: m in unresolved && m != n ==> m in Without(unresolved, n)
  {
    WithoutIsFilter(unresolved, n);
    FilterMembers(unresolved, y => y != n);
    NoDupSubLength([n] + Without(unresolved, n), unresolved);
  }

  /** One pass over a snapshot of the unresolved calls removes at least the one that was resolvable at its start. */
  method ResolvePass<N(==, !new)>(g: Graph<N>, weight: map<N, int>, critical0: map<N, int>, pass: seq<N>,
                       ghost rank: map<N, nat>, ghost least: N) returns (critical: map<N, int>, unresolved: seq<N>)
    requires Closed(g) && Ranked(g, rank) && weight.Keys == g.Keys
    requires Settled(g, rank, weight, critical0) && Unresolved(g, critical0, pass)
    requires least in pass && Resolvable(g, critical0, least)
    ensures Settled(g, rank, weight, critical) && Unresolved(g, critical, unresolved) && |unresolved| < |pass|
  {
    critical, unresolved := critical0, pass;
    for i := 0 to |pass|
      invariant Settled(g, rank, weight, critical) && Unresolved(g, critical, unresolved)
      invariant critical0.Keys <= critical.Keys && |unresolved| <= |pass|
      invariant forall j :: i <= j < |pass| ==> pass[j] in unresolved
      invariant (exists j :: i <= j < |pass| && pass[j] == least) || |unresolved| < |pass|
    {
      var n := pass[i];
      if Resolvable(g, critical, n) {
        ghost var before, was := critical, unresolved;
        critical := ResolveOne(g, weight, critical, n, rank);
        unresolved := Without(unresolved, n);
        ResolveStep(g, before, was, n, critical);
      }
    }
  }

  /** Some unresolved call of least rank has all its parents resolved. */
  lemma {:induction false} LeastUnresolved<N(!new)>(g: Graph<N>, rank: map<N, nat>, critical: map<N, int>,
                                             unresolved: seq<N>, n: N) returns (least: N)
    requires Closed(g) && Ranked(g, rank) && Unresolved(g, critical, unresolved) && n in unresolved
    ensures least in unresolved && Resolvable(g, critical, least)
    decreases rank[n]
  {
    if Resolvable(g, critical, n) {
      least := n;
    } else {
      var k :| 0 <= k < |g[n]| && g[n][k] !in critical;
      least := LeastUnresolved(g, rank, critical, unresolved, g[n][k]);
    }
  }

  /** The loop that resolves every call whose parents are resolved, until none is left:
      it ends on every acyclic graph with the heaviest path of every call. */
  method ResolvePaths<N(==, !new)>(order: seq<N>, g: Graph<N>, weight: map<N, int>, ghost rank: map<N, nat>)
      returns (critical: map<N, int>)
    requires NoDup(order) && Closed(g) && (forall n :: n in order <==> n in g)
    requires Ranked(g, rank) && weight.Keys == g.Keys
    ensures critical.Keys == g.Keys
    ensures forall n :: n in g ==> critical[n] == Longest(g, rank, weight, n)
  {
    critical := map[];
    var unresolved := order;
    while unresolved != []
      invariant Settled(g, rank, weight, critical) && Unresolved(g, critical, unresolved)
      decreases |unresolved|
    {
      ghost var least := LeastUnresolved(g, rank, critical, unresolved, unresolved[0]);
      critical, unresolved := ResolvePass(g, weight, critical, unresolved, rank, least);
    }
  }

  /** The memoised recursive visit: it extends the memo with heaviest paths and returns the one of `n`. */
  method Visit<N(==)>(g: Graph<N>, weight: map<N, int>, memo0: map<N, int>, n: N, ghost rank: map<N, nat>)
      returns (value: int, memo: map<N, int>)
    requires Closed(g) && Ranked(g, rank) && weight.Keys == g.Keys && n in g
    requires Settled(g, rank, weight, memo0)
    ensures Settled(g, rank, weight, memo) && memo0.Keys <= memo.Keys && n in memo
    ensures value == Longest(g, rank, weight, n)
    decreases rank[n]
  {
    if n in memo0 {
      return memo0[n], memo0;
    }
    memo := memo0;
    var best := 0;
    for k := 0 to |g[n]|
      invariant Settled(g, rank, weight, memo) && memo0.Keys <= memo.Keys
      invariant best == Heaviest(g, rank, weight, n, k)
    {
      var one;
      one, memo := Visit(g, weight, memo, g[n][k], rank);
      best := if k == 0 then one else Max(best, one);
    }
    value := best + weight[n];
    memo := memo[n := value];
  }
}
