/** First-come-first-served queues on several levels, stored in two ways.
 *
 *  The simulator keeps one deque per level. The runtime keeps no queue at all:
 *  every call carries a level and a stamp from a growing counter, and the line is
 *  whatever sorting by (level, stamp) gives. This module proves that the two are
 *  the same data structure under admission, removal and a scheduling refresh.
 */
module Levels {
  import opened Sequences

  /** Where a level ends, in attained service. */
  datatype Bound = Finite(value: real) | Infinite

  datatype Place = Place(queue: nat, order: nat)

  type Places<!I> = map<I, Place>

  predicate Before(a: Place, b: Place) {
    a.queue < b.queue || (a.queue == b.queue && a.order < b.order)
  }

  /** No two calls carry the same stamp, and every stamp came from the counter. */
  ghost predicate Stamped<I>(p: Places<I>, counter: nat) {
    && (forall i :: i in p ==> p[i].order <= counter)
    && (forall i, j :: i in p && j in p && i != j ==> p[i].order != p[j].order)
  }

  ghost predicate Sorted<I>(s: seq<I>, p: Places<I>)
    requires forall i :: i in s ==> i in p
  {
    forall j, k :: 0 <= j < k < |s| ==> Before(p[s[j]], p[s[k]])
  }

  function Insert<I(==, !new)>(i: I, s: seq<I>, p: Places<I>): (r: seq<I>)
    requires i in p && forall j :: j in s ==> j in p
    ensures |r| == |s| + 1
    ensures forall j :: j in r <==> j == i || j in s
  {
    if s == [] then [i]
    else if Before(p[s[0]], p[i]) then
      var rest := Insert(i, s[1..], p);
      assert forall j :: j in s <==> j == s[0] || j in s[1..];
      [s[0]] + rest
    else [i] + s
  }

  /** Python's `sorted(ids, key=(queue, order))`. */
  function Sort<I(==, !new)>(ids: seq<I>, p: Places<I>): (r: seq<I>)
    requires forall i :: i in ids ==> i in p
    ensures |r| == |ids|
    ensures forall i :: i in r <==> i in ids
  {
    if ids == [] then []
    else
      assert forall j :: j in ids <==> j == ids[0] || j in ids[1..];
      Insert(ids[0], Sort(ids[1..], p), p)
  }

  lemma {:induction false} InsertSorted<I(!new)>(i: I, s: seq<I>, p: Places<I>, counter: nat)
    requires Stamped(p, counter)
    requires i in p && i !in s && forall j :: j in s ==> j in p
    requires Sorted(s, p)
    ensures Sorted(Insert(i, s, p), p)
  {
    if s != [] && Before(p[s[0]], p[i]) {
      InsertSorted(i, s[1..], p, counter);
      var rest := Insert(i, s[1..], p);
      forall k | 0 <= k < |rest| ensures Before(p[s[0]], p[rest[k]]) {
        assert rest[k] in rest;
        if rest[k] != i {
          assert rest[k] in s[1..];
        }
      }
    } else if s != [] {
      assert s[0] in s;
      assert Before(p[i], p[s[0]]);
    }
  }

  lemma {:induction false} SortSorted<I(!new)>(ids: seq<I>, p: Places<I>, counter: nat)
    requires Stamped(p, counter) && NoDup(ids)
    requires forall i :: i in ids ==> i in p
    ensures Sorted(Sort(ids, p), p)
  {
    if ids != [] {
      SortSorted(ids[1..], p, counter);
      InsertSorted(ids[0], Sort(ids[1..], p), p, counter);
    }
  }

  lemma SortedNoDup<I>(s: seq<I>, p: Places<I>)
    requires forall i :: i in s ==> i in p
    requires Sorted(s, p)
    ensures NoDup(s)
  {
    forall j, k | 0 <= j < k < |s| ensures s[j] != s[k] {
      assert Before(p[s[j]], p[s[k]]);
    }
  }

  /** A set of calls has only one sorted listing. */
  lemma {:induction false} SortedUnique<I>(s: seq<I>, t: seq<I>, p: Places<I>)
    requires forall i :: i in s ==> i in p
    requires forall i :: i in s <==> i in t
    requires Sorted(s, p) && Sorted(t, p)
    ensures s == t
  {
    SortedNoDup(s, p);
    SortedNoDup(t, p);
    NoDupSameLength(s, t);
    if s != [] {
      assert s[0] in t && t[0] in s;
      assert s[0] == t[0];
      forall i ensures i in s[1..] <==> i in t[1..] {
        assert i in s <==> i == s[0] || i in s[1..];
        assert i in t <==> i == t[0] || i in t[1..];
      }
      SortedUnique(s[1..], t[1..], p);
    }
  }

  // ---- Deques, one per level -------------------------------------------------

  ghost predicate Ascending<I>(level: seq<I>, p: Places<I>)
    requires forall i :: i in level ==> i in p
  {
    forall j, k :: 0 <= j < k < |level| ==> p[level[j]].order < p[level[k]].order
  }

  /** A deque of calls on level `q`, oldest stamp first. */
  ghost predicate LevelOk<I>(level: seq<I>, p: Places<I>, q: nat) {
    && (forall i :: i in level ==> i in p && p[i].queue == q)
    && Ascending(level, p)
  }

  /** The deques hold exactly the listed calls, each on its own level, oldest stamp first. */
  ghost predicate Agrees<I>(deques: seq<seq<I>>, p: Places<I>) {
    && (forall q :: 0 <= q < |deques| ==> LevelOk(deques[q], p, q))
    && (forall i :: i in p ==> p[i].queue < |deques| && i in deques[p[i].queue])
  }

  /** `iter_queued`: level 0 first, each level from its head. */
  function Flatten<I>(deques: seq<seq<I>>): seq<I>
  {
    if deques == [] then [] else Flatten(deques[..|deques| - 1]) + deques[|deques| - 1]
  }

  lemma {:induction false} FlattenMembers<I>(deques: seq<seq<I>>)
    ensures forall i :: i in Flatten(deques) ==> exists q :: 0 <= q < |deques| && i in deques[q]
    ensures forall q :: 0 <= q < |deques| ==> forall i :: i in deques[q] ==> i in Flatten(deques)
  {
    if deques != [] {
      var front := deques[..|deques| - 1];
      FlattenMembers(front);
      forall q, i | 0 <= q < |deques| && i in deques[q] ensures i in Flatten(deques) {
        if q < |front| { assert i in front[q]; }
      }
      forall i | i in Flatten(deques) ensures exists q :: 0 <= q < |deques| && i in deques[q] {
        if i in Flatten(front) {
          var q :| 0 <= q < |front| && i in front[q];
          assert i in deques[q];
        }
      }
    }
  }

  lemma {:induction false} FlattenSorted<I>(deques: seq<seq<I>>, p: Places<I>)
    requires forall q :: 0 <= q < |deques| ==> LevelOk(deques[q], p, q)
    ensures forall i :: i in Flatten(deques) ==> i in p && p[i].queue < |deques|
    ensures Sorted(Flatten(deques), p)
  {
    if deques != [] {
      var front, last := deques[..|deques| - 1], deques[|deques| - 1];
      assert forall q :: 0 <= q < |front| ==> front[q] == deques[q];
      FlattenSorted(front, p);
      assert LevelOk(last, p, |deques| - 1);
      SortedConcat(Flatten(front), last, p, |deques| - 1);
    }
  }

  lemma SortedConcat<I>(low: seq<I>, last: seq<I>, p: Places<I>, q: nat)
    requires forall i :: i in low ==> i in p && p[i].queue < q
    requires Sorted(low, p) && LevelOk(last, p, q)
    ensures Sorted(low + last, p)
  {
    forall j, k | 0 <= j < k < |low + last| ensures Before(p[(low + last)[j]], p[(low + last)[k]]) {
      if k >= |low| {
        assert last[k - |low|] in last;
        if j >= |low| { assert last[j - |low|] in last; } else { assert low[j] in low; }
      }
    }
  }

  /** Reading the deques level by level is sorting the calls by (level, stamp). */
  lemma FlattenIsSort<I(!new)>(deques: seq<seq<I>>, p: Places<I>, ids: seq<I>, counter: nat)
    requires Agrees(deques, p) && Stamped(p, counter) && NoDup(ids)
    requires forall i :: i in ids <==> i in p
    ensures Flatten(deques) == Sort(ids, p)
  {
    FlattenSorted(deques, p);
    FlattenMembers(deques);
    SortSorted(ids, p, counter);
    SortedUnique(Flatten(deques), Sort(ids, p), p);
  }

  /** `queues[to].append(i)` beside the two fields of the new place. */
  function Push<I>(deques: seq<seq<I>>, i: I, to: nat): seq<seq<I>>
    requires to < |deques|
  {
    deques[to := deques[to] + [i]]
  }

  /** `queues[from].remove(i)`. */
  function Take<I(==)>(deques: seq<seq<I>>, i: I, from: nat): seq<seq<I>>
    requires from < |deques|
  {
    deques[from := Without(deques[from], i)]
  }

  /** Admission: a fresh stamp at the tail of a level keeps deques and keys in step. */
  lemma PushAgrees<I>(deques: seq<seq<I>>, p: Places<I>, i: I, to: nat, counter: nat)
    requires Agrees(deques, p) && Stamped(p, counter)
    requires i !in p && to < |deques|
    ensures Agrees(Push(deques, i, to), p[i := Place(to, counter + 1)])
    ensures Stamped(p[i := Place(to, counter + 1)], counter + 1)
  {
    var p' := p[i := Place(to, counter + 1)];
    forall q | 0 <= q < |deques| ensures LevelOk(Push(deques, i, to)[q], p', q) {
      assert LevelOk(deques[q], p, q);
    }
  }

  /** Completion or cancellation: removing a call keeps deques and keys in step. */
  lemma TakeAgrees<I>(deques: seq<seq<I>>, p: Places<I>, i: I, counter: nat)
    requires Agrees(deques, p) && Stamped(p, counter)
    requires i in p
    ensures Agrees(Take(deques, i, p[i].queue), p - {i})
    ensures Stamped(p - {i}, counter)
  {
    hide LevelOk, Without;
    var from := p[i].queue;
    var taken := Take(deques, i, from);
    assert LevelOk(deques[from], p, from);
    LevelTaken(deques[from], p, from, i);
    forall q | 0 <= q < |deques| ensures LevelOk(taken[q], p - {i}, q) {
      assert LevelOk(deques[q], p, q);
      if q != from {
        LevelSpared(deques[q], p, q, i);
      }
    }
  }

  lemma LevelTaken<I>(level: seq<I>, p: Places<I>, q: nat, i: I)
    requires LevelOk(level, p, q)
    ensures LevelOk(Without(level, i), p - {i}, q)
    ensures forall j :: j in level && j != i ==> j in Without(level, i)
  {
    LevelNoDup(level, p, q);
    WithoutIsFilter(level, i);
    FilterMembers(level, x => x != i);
    FilterAscending(level, p, x => x != i);
  }

  lemma LevelSpared<I>(level: seq<I>, p: Places<I>, q: nat, i: I)
    requires LevelOk(level, p, q) && (i in p ==> p[i].queue != q)
    ensures LevelOk(level, p - {i}, q)
  {
  }

  lemma LevelNoDup<I>(level: seq<I>, p: Places<I>, q: nat)
    requires LevelOk(level, p, q)
    ensures NoDup(level)
  {
    forall j, k | 0 <= j < k < |level| ensures level[j] != level[k] {
      assert p[level[j]].order < p[level[k]].order;
    }
  }

  lemma HeadFirst<I>(s: seq<I>, p: Places<I>)
    requires s != [] && (forall i :: i in s ==> i in p) && Ascending(s, p)
    ensures forall i :: i in s[1..] ==> i in p && p[s[0]].order < p[i].order
    ensures Ascending(s[1..], p)
  {
  }

  lemma AscendingCons<I>(x: I, s: seq<I>, p: Places<I>)
    requires x in p && (forall i :: i in s ==> i in p && p[x].order < p[i].order) && Ascending(s, p)
    ensures Ascending([x] + s, p)
  {
  }

  lemma {:induction false} FilterAscending<I>(s: seq<I>, p: Places<I>, keep: I -> bool)
    requires forall i :: i in s ==> i in p
    requires Ascending(s, p)
    ensures forall i :: i in Filter(s, keep) ==> i in s
    ensures Ascending(Filter(s, keep), p)
  {
    FilterMembers(s, keep);
    if s != [] {
      FilterAscending(s[1..], p, keep);
      FilterMembers(s[1..], keep);
      var rest := Filter(s[1..], keep);
      HeadFirst(s, p);
      if keep(s[0]) {
        AscendingCons(s[0], rest, p);
      }
    }
  }

  /** A move is a removal and an admission under a fresh stamp. */
  lemma MoveAgrees<I>(deques: seq<seq<I>>, p: Places<I>, i: I, to: nat, counter: nat)
    requires Agrees(deques, p) && Stamped(p, counter)
    requires i in p && to < |deques|
    ensures Agrees(Push(Take(deques, i, p[i].queue), i, to), p[i := Place(to, counter + 1)])
    ensures Stamped(p[i := Place(to, counter + 1)], counter + 1)
  {
    TakeAgrees(deques, p, i, counter);
    PushAgrees(Take(deques, i, p[i].queue), p - {i}, i, to, counter);
    assert (p - {i})[i := Place(to, counter + 1)] == p[i := Place(to, counter + 1)];
  }

  // ---- One scheduling refresh ------------------------------------------------

  /** The levels each call moves to during a refresh: none, a demotion, a promotion, or both in turn. */
  type Hops<!I> = map<I, seq<nat>>

  ghost predicate HopsFit<I>(hops: Hops<I>, ids: seq<I>, levels: nat) {
    forall i :: i in ids ==> i in hops && forall k :: 0 <= k < |hops[i]| ==> hops[i][k] < levels
  }

  /** Each hop takes the next stamp of the counter. */
  function HopKeys<I>(p: Places<I>, i: I, hops: seq<nat>, counter: nat): (r: (Places<I>, nat))
    requires i in p
    ensures r.0.Keys == p.Keys
    decreases |hops|
  {
    if hops == [] then (p, counter)
    else HopKeys(p[i := Place(hops[0], counter + 1)], i, hops[1..], counter + 1)
  }

  function HopDeques<I(==)>(deques: seq<seq<I>>, i: I, from: nat, hops: seq<nat>): (r: seq<seq<I>>)
    requires from < |deques| && forall k :: 0 <= k < |hops| ==> hops[k] < |deques|
    ensures |r| == |deques|
    decreases |hops|
  {
    if hops == [] then deques
    else HopDeques(Push(Take(deques, i, from), i, hops[0]), i, hops[0], hops[1..])
  }

  /** The refresh loop on keys, over a snapshot of the line. */
  function RefreshKeys<I>(p: Places<I>, ids: seq<I>, hops: Hops<I>, counter: nat): (r: (Places<I>, nat))
    requires forall i :: i in ids ==> i in hops && i in p
    ensures r.0.Keys == p.Keys
  {
    if ids == [] then (p, counter)
    else
      var before := RefreshKeys(p, ids[..|ids| - 1], hops, counter);
      HopKeys(before.0, ids[|ids| - 1], hops[ids[|ids| - 1]], before.1)
  }

  /** The refresh loop on deques, over the same snapshot. */
  function RefreshDeques<I(==)>(deques: seq<seq<I>>, p: Places<I>, ids: seq<I>, hops: Hops<I>): (r: seq<seq<I>>)
    requires HopsFit(hops, ids, |deques|)
    requires forall i :: i in ids ==> i in p && p[i].queue < |deques|
    ensures |r| == |deques|
  {
    if ids == [] then deques
    else
      var i := ids[|ids| - 1];
      assert i in ids;
      HopDeques(RefreshDeques(deques, p, ids[..|ids| - 1], hops), i, p[i].queue, hops[i])
  }

  lemma {:induction false} HopsAgree<I>(deques: seq<seq<I>>, p: Places<I>, i: I, hops: seq<nat>, counter: nat)
    requires Agrees(deques, p) && Stamped(p, counter) && i in p
    requires forall k :: 0 <= k < |hops| ==> hops[k] < |deques|
    ensures var keys := HopKeys(p, i, hops, counter);
      && Agrees(HopDeques(deques, i, p[i].queue, hops), keys.0)
      && Stamped(keys.0, keys.1)
    decreases |hops|
  {
    assert p[i].queue < |deques|;
    hide Agrees, Stamped;
    if hops != [] {
      MoveAgrees(deques, p, i, hops[0], counter);
      HopsAgree(Push(Take(deques, i, p[i].queue), i, hops[0]), p[i := Place(hops[0], counter + 1)], i, hops[1..],
        counter + 1);
    }
  }

  lemma {:induction false} HopKeysResult<I>(p: Places<I>, i: I, hops: seq<nat>, counter: nat)
    requires i in p
    ensures var keys := HopKeys(p, i, hops, counter);
      && keys.1 == counter + |hops|
      && (keys.0 == if hops == [] then p else p[i := Place(hops[|hops| - 1], keys.1)])
    decreases |hops|
  {
    if hops != [] {
      HopKeysResult(p[i := Place(hops[0], counter + 1)], i, hops[1..], counter + 1);
    }
  }

  lemma {:induction false} RefreshStamped<I>(p: Places<I>, ids: seq<I>, hops: Hops<I>, counter: nat)
    requires NoDup(ids) && forall i :: i in ids ==> i in hops && i in p
    requires Stamped(p, counter)
    ensures var keys := RefreshKeys(p, ids, hops, counter); Stamped(keys.0, keys.1)
  {
    if ids != [] {
      var front, i := ids[..|ids| - 1], ids[|ids| - 1];
      RefreshStamped(p, front, hops, counter);
      RefreshKeysResult(p, front, hops, counter);
      var keys := RefreshKeys(p, front, hops, counter);
      HopKeysResult(keys.0, i, hops[i], keys.1);
    }
  }

  /** What a refresh does to the key of each call. */
  lemma {:induction false} RefreshKeysResult<I>(p: Places<I>, ids: seq<I>, hops: Hops<I>, counter: nat)
    requires NoDup(ids) && forall i :: i in ids ==> i in hops && i in p
    ensures var keys := RefreshKeys(p, ids, hops, counter);
      && keys.0.Keys == p.Keys && counter <= keys.1
      && (forall j :: j in p && (j in ids ==> hops[j] == []) ==> keys.0[j] == p[j])
      && (forall j :: j in ids && hops[j] != [] ==>
            counter < keys.0[j].order <= keys.1 && keys.0[j].queue == hops[j][|hops[j]| - 1])
  {
    if ids != [] {
      var front, i := ids[..|ids| - 1], ids[|ids| - 1];
      assert i !in front && forall j :: j in ids <==> j == i || j in front;
      RefreshKeysResult(p, front, hops, counter);
      var keys := RefreshKeys(p, front, hops, counter);
      HopKeysResult(keys.0, i, hops[i], keys.1);
    }
  }

  /** A refresh on deques and a refresh on keys reach the same queues. */
  lemma {:induction false} RefreshAgrees<I>(deques: seq<seq<I>>, p: Places<I>, ids: seq<I>, hops: Hops<I>, counter: nat)
    requires Agrees(deques, p) && Stamped(p, counter) && NoDup(ids)
    requires HopsFit(hops, ids, |deques|) && forall i :: i in ids ==> i in p
    ensures var keys := RefreshKeys(p, ids, hops, counter);
      && Agrees(RefreshDeques(deques, p, ids, hops), keys.0)
      && Stamped(keys.0, keys.1)
  {
    if ids != [] {
      var front, i := ids[..|ids| - 1], ids[|ids| - 1];
      assert i in ids && i !in front && forall j :: j in front ==> j in ids;
      RefreshAgrees(deques, p, front, hops, counter);
      RefreshKeysResult(p, front, hops, counter);
      var keys := RefreshKeys(p, front, hops, counter);
      assert keys.0[i] == p[i];
      HopsAgree(RefreshDeques(deques, p, front, hops), keys.0, i, hops[i], keys.1);
    }
  }

  lemma {:induction false} WithoutTail<T>(s: seq<T>, x: T)
    requires x !in s
    ensures Without(s + [x], x) == s
  {
    if s != [] {
      WithoutTail(s[1..], x);
      assert (s + [x])[1..] == s[1..] + [x];
    }
  }

  /** However many hops a call makes, the deques only see its last one. */
  lemma {:induction false} HopsNet<I>(deques: seq<seq<I>>, i: I, from: nat, hops: seq<nat>)
    requires from < |deques| && forall k :: 0 <= k < |hops| ==> hops[k] < |deques|
    requires forall q :: 0 <= q < |deques| ==> NoDup(deques[q])
    requires forall q :: 0 <= q < |deques| && q != from ==> i !in deques[q]
    ensures HopDeques(deques, i, from, hops) ==
      if hops == [] then deques else Push(Take(deques, i, from), i, hops[|hops| - 1])
    decreases |hops|
  {
    if |hops| > 1 {
      WithoutIsFilter(deques[from], i);
      FilterMembers(deques[from], x => x != i);
      var taken := Take(deques, i, from);
      WithoutTail(taken[hops[0]], i);
      var once := Push(taken, i, hops[0]);
      HopsNet(once, i, hops[0], hops[1..]);
      assert Take(once, i, hops[0]) == taken;
      assert hops[1..][|hops| - 2] == hops[|hops| - 1];
    }
  }

  /** Seen from one level, a visit removes the call if it lived here and appends it if it ends here. */
  lemma HopsAtLevel<I>(deques: seq<seq<I>>, i: I, from: nat, hops: seq<nat>, q: nat)
    requires from < |deques| && forall k :: 0 <= k < |hops| ==> hops[k] < |deques|
    requires forall q :: 0 <= q < |deques| ==> NoDup(deques[q]) && (q != from ==> i !in deques[q])
    requires q < |deques|
    ensures HopDeques(deques, i, from, hops)[q] ==
      (if hops != [] && q == from then Without(deques[q], i) else deques[q])
      + (if hops != [] && hops[|hops| - 1] == q then [i] else [])
  {
    HopsNet(deques, i, from, hops);
  }

  predicate Moves<I>(hops: Hops<I>, i: I) { i in hops && hops[i] != [] }

  /** The calls a refresh of `done` leaves where they are. */
  function Staying<I(==)>(done: seq<I>, hops: Hops<I>): I -> bool { i => !(i in done && Moves(hops, i)) }

  /** The calls a refresh leaves on level `q`. */
  function Landing<I>(hops: Hops<I>, q: nat): I -> bool { i => Moves(hops, i) && hops[i][|hops[i]| - 1] == q }

  /** Midway through a refresh no deque repeats a call, and a call not yet visited is still on its own level. */
  lemma RefreshHomed<I>(deques: seq<seq<I>>, p: Places<I>, ids: seq<I>, hops: Hops<I>, counter: nat, i: I)
    requires Agrees(deques, p) && Stamped(p, counter) && NoDup(ids)
    requires HopsFit(hops, ids, |deques|) && forall j :: j in ids ==> j in p
    requires i in p && i !in ids
    ensures var was := RefreshDeques(deques, p, ids, hops);
      forall q :: 0 <= q < |was| ==> NoDup(was[q]) && (q != p[i].queue ==> i !in was[q])
  {
    RefreshAgrees(deques, p, ids, hops, counter);
    RefreshKeysResult(p, ids, hops, counter);
    var keys := RefreshKeys(p, ids, hops, counter).0;
    var was := RefreshDeques(deques, p, ids, hops);
    forall q | 0 <= q < |was| ensures NoDup(was[q]) && (q != p[i].queue ==> i !in was[q]) {
      assert LevelOk(was[q], keys, q);
      LevelNoDup(was[q], keys, q);
    }
  }

  /** One more call: what the staying and the landing calls of a level become. */
  lemma ShapeStep<I(!new)>(level: seq<I>, front: seq<I>, i: I, hops: Hops<I>, q: nat, home: bool)
    requires i !in front && (!home ==> i !in level)
    ensures var was := Filter(level, Staying(front, hops)) + Filter(front, Landing(hops, q));
      var now := Filter(level, Staying(front + [i], hops)) + Filter(front + [i], Landing(hops, q));
      NoDup(was) ==>
        now == (if Moves(hops, i) && home then Without(was, i) else was) + (if Landing(hops, q)(i) then [i] else [])
  {
    var stay, land := Filter(level, Staying(front, hops)), Filter(front, Landing(hops, q));
    FilterAppend(front, [i], Landing(hops, q));
    assert Filter([i], Landing(hops, q)) == if Landing(hops, q)(i) then [i] else [];
    if Moves(hops, i) && home {
      LeaverDrops(level, front, i, hops, q);
    } else {
      FilterSame(level, Staying(front, hops), Staying(front + [i], hops));
    }
  }

  lemma LeaverDrops<I(!new)>(level: seq<I>, front: seq<I>, i: I, hops: Hops<I>, q: nat)
    requires i !in front && Moves(hops, i)
    ensures var stay, land := Filter(level, Staying(front, hops)), Filter(front, Landing(hops, q));
      NoDup(stay + land) ==> Without(stay + land, i) == Filter(level, Staying(front + [i], hops)) + land
  {
    var stay, land := Filter(level, Staying(front, hops)), Filter(front, Landing(hops, q));
    if NoDup(stay + land) {
      FilterMembers(front, Landing(hops, q));
      WithoutSplit(stay, land, i);
      FilterBoth(level, Staying(front, hops), Not(i), Staying(front + [i], hops));
    }
  }

  function Not<I(==)>(x: I): I -> bool { y => y != x }

  lemma WithoutSplit<I>(a: seq<I>, b: seq<I>, x: I)
    requires NoDup(a + b) && x !in b
    ensures Without(a + b, x) == Filter(a, Not(x)) + b
  {
    WithoutIsFilter(a + b, x);
    FilterSame(a + b, y => y != x, Not(x));
    FilterAppend(a, b, Not(x));
    FilterAll(b, Not(x));
  }

  /** After one refresh every level lists first the calls that stayed, in their old order,
      then the calls that moved there, in the old global order of the snapshot. */
  lemma {:induction false} RefreshShape<I(!new)>(deques: seq<seq<I>>, p: Places<I>, ids: seq<I>, hops: Hops<I>,
                                          counter: nat, q: nat)
    requires Agrees(deques, p) && Stamped(p, counter) && NoDup(ids)
    requires HopsFit(hops, ids, |deques|) && forall i :: i in ids ==> i in p
    requires q < |deques|
    ensures RefreshDeques(deques, p, ids, hops)[q] ==
      Filter(deques[q], Staying(ids, hops)) + Filter(ids, Landing(hops, q))
  {
    hide LevelOk, Without, Filter, Stamped;
    if ids == [] {
      FilterAll(deques[q], Staying(ids, hops));
      assert Filter(ids, Landing(hops, q)) == [] by { FilterNone(ids, Landing(hops, q)); }
    } else {
      var front, i := ids[..|ids| - 1], ids[|ids| - 1];
      assert ids == front + [i];
      assert i in ids && i !in front && forall j :: j in front ==> j in ids;
      RefreshShape(deques, p, front, hops, counter, q);
      RefreshHomed(deques, p, front, hops, counter, i);
      var was := RefreshDeques(deques, p, front, hops);
      HopsAtLevel(was, i, p[i].queue, hops[i], q);
      assert RefreshDeques(deques, p, ids, hops) == HopDeques(was, i, p[i].queue, hops[i]);
      OldHome(deques, p, i, q);
      ShapeStep(deques[q], front, i, hops, q, q == p[i].queue);
    }
  }

  lemma OldHome<I>(deques: seq<seq<I>>, p: Places<I>, i: I, q: nat)
    requires Agrees(deques, p) && i in p && q < |deques|
    ensures q != p[i].queue ==> i !in deques[q]
  {
    assert LevelOk(deques[q], p, q);
  }
}
