/** Decode pressure: reserves and then the calls of lowest priority give up their KV, each after it was saved. */
module DecodePressure {
  import opened Sequences
  import opened Levels
  import opened Windows
  import opened DeviceKVs
  import opened HostKVs

  /** A request of the decode batch: its tokens with their slots, how many of these belong to the cache, and the cache
      lock it holds. */
  datatype Req = Req(rid: string, tokens: Path, slots: seq<Slot>, prefixLen: nat, node: Path)

  /** A reserve: the cache lock, and the tokens whose KV it keeps. */
  datatype Reserve = Reserve(node: Path, tokens: Path)

  function Own(r: Req): seq<Slot> { if r.prefixLen <= |r.slots| then r.slots[r.prefixLen..] else [] }

  function Rids(reqs: seq<Req>): (s: seq<string>)
    ensures |s| == |reqs| && forall i :: 0 <= i < |reqs| ==> s[i] == reqs[i].rid
  {
    seq(|reqs|, i requires 0 <= i < |reqs| => reqs[i].rid)
  }

  function Nodes(reqs: seq<Req>): (s: seq<Path>)
    ensures |s| == |reqs| && forall i :: 0 <= i < |reqs| ==> s[i] == reqs[i].node
  {
    seq(|reqs|, i requires 0 <= i < |reqs| => reqs[i].node)
  }

  ghost predicate ReqOk(d: Device, r: Req) {
    |r.slots| == |r.tokens| && r.prefixLen <= |r.slots| && Backed(d.layers, r.slots) && Distinct(Own(r), d)
  }

  ghost predicate Apart(a: Req, b: Req) { a.rid != b.rid && forall s :: s in Own(a) ==> s !in Own(b) }

  /** Every request owns its slots beyond the cached prefix alone, and holds one lock. */
  ghost predicate Owned(d: Device, reqs: seq<Req>) {
    && DeviceOk(d) && (forall i :: 0 <= i < |reqs| ==> ReqOk(d, reqs[i]))
    && (forall i, j :: 0 <= i < j < |reqs| ==> Apart(reqs[i], reqs[j]))
    && multiset(Nodes(reqs)) <= d.pins
  }

  // ---- Reserves --------------------------------------------------------------------------------

  function ReserveNodes(reserves: map<string, Reserve>, rids: seq<string>): (s: seq<Path>)
    requires forall rid :: rid in rids ==> rid in reserves
    ensures |s| == |rids| && forall i :: 0 <= i < |rids| ==> s[i] == reserves[rids[i]].node
  {
    seq(|rids|, i requires 0 <= i < |rids| => assert rids[i] in rids; reserves[rids[i]].node)
  }

  /** Every reserve holds its own lock, and the lock covers its tokens. */
  ghost predicate ReservesOk(d: Device, reserves: map<string, Reserve>, rids: seq<string>) {
    && NoDup(rids) && (forall rid :: rid in rids <==> rid in reserves)
    && (forall rid :: rid in rids ==> reserves[rid].tokens <= reserves[rid].node)
    && multiset(ReserveNodes(reserves, rids)) <= d.pins
  }

  /** The backups of everybody else. */
  ghost predicate BackupsKept(saved0: Backups, saved: Backups, rids: seq<string>) {
    forall rid :: rid in saved0 && rid !in rids ==> rid in saved && saved[rid] == saved0[rid]
  }

  datatype Release = Released | LostPrefix | SaveFailed

  /** A locked reserve is still completely cached. */
  lemma PinnedIsMatched(d: Device, r: Reserve)
    requires DeviceOk(d) && r.node in d.pins && r.tokens <= r.node
    ensures MatchLen(d.tree, r.tokens) == |r.tokens|
    ensures Backed(d.layers, Matched(d.tree, r.tokens))
  {
    if r.tokens != [] {
      assert r.node[..|r.node|] == r.node;
      ClosedUpTo(d.tree, r.node, |r.node|, |r.tokens|);
      assert r.node[..|r.tokens|] == r.tokens[..|r.tokens|];
      LongestAt(d.tree, r.tokens, |r.tokens|);
    }
    var slots := Matched(d.tree, r.tokens);
    forall i | 0 <= i < |slots| ensures HasSlot(d.layers, slots[i]) {
      assert slots[(i + 1) - 1] == d.tree[r.tokens[..i + 1]];
      assert d.tree[r.tokens[..i + 1]] in Cached(d.tree);
    }
  }

  /** The first `k` reserves of `rids` are released: saved, unlocked and forgotten, in this order of events; the others
      are untouched. */
  ghost predicate ReleasedUpTo(d0: Device, d: Device, reserves0: map<string, Reserve>, reserves: map<string, Reserve>,
                               saved: Backups, rids: seq<string>, k: nat, preserve: bool)
    requires k <= |rids| && (forall rid :: rid in rids ==> rid in reserves0)
  {
    && reserves == reserves0 - Members(rids[..k])
    && d == d0.(pins := d.pins) && d.pins + multiset(ReserveNodes(reserves0, rids[..k])) == d0.pins
    && (preserve ==> forall i :: 0 <= i < k ==> SavedAs(saved, rids[i], reserves0[rids[i]].tokens, d0))
  }

  /** The backup of a reserve holds what its cached path held. */
  ghost predicate SavedAs(saved: Backups, rid: string, tokens: Path, d: Device) {
    rid in saved && saved[rid].tokens == tokens && Copies(saved[rid], d.layers, Matched(d.tree, tokens))
  }

  lemma ReleaseNext(d0: Device, d: Device, reserves0: map<string, Reserve>, reserves: map<string, Reserve>,
                    saved: Backups, saved': Backups, rids: seq<string>, k: nat, preserve: bool)
    requires k < |rids| && NoDup(rids) && (forall rid :: rid in rids ==> rid in reserves0)
    requires ReleasedUpTo(d0, d, reserves0, reserves, saved, rids, k, preserve) && reserves0[rids[k]].node in d.pins
    requires preserve ==> rids[k] in saved' && saved' == saved[rids[k] := saved'[rids[k]]] && SavedAs(saved', rids[k],
      reserves0[rids[k]].tokens, d0)
    ensures rids[k] in reserves
    ensures ReleasedUpTo(d0, d.(pins := d.pins - multiset{reserves0[rids[k]].node}), reserves0, reserves - {rids[k]},
      saved', rids, k + 1, preserve)
  {
    TakeMore(rids, k);
    assert rids[k] !in rids[..k];
    var nodes := ReserveNodes(reserves0, rids[..k + 1]);
    assert nodes == ReserveNodes(reserves0, rids[..k]) + [reserves0[rids[k]].node];
    assert Members(rids[..k + 1]) == Members(rids[..k]) + {rids[k]};
  }

  lemma NextPinned(d0: Device, d: Device, reserves0: map<string, Reserve>, rids: seq<string>, k: nat)
    requires k < |rids| && (forall rid :: rid in rids ==> rid in reserves0)
      && multiset(ReserveNodes(reserves0, rids)) <= d0.pins
    requires d.pins + multiset(ReserveNodes(reserves0, rids[..k])) == d0.pins
    ensures reserves0[rids[k]].node in d.pins
  {
    var nodes := ReserveNodes(reserves0, rids);
    assert nodes[..k] == ReserveNodes(reserves0, rids[..k]);
    assert nodes == nodes[..k] + [nodes[k]] + nodes[k + 1..];
    assert multiset(nodes) == multiset(nodes[..k]) + multiset{nodes[k]} + multiset(nodes[k + 1..]);
    assert d.pins[nodes[k]] + multiset(nodes[..k])[nodes[k]] == d0.pins[nodes[k]] >= multiset(nodes)[nodes[k]];
  }

  // ---- What the host refuses ---------------------------------------------------------------------

  /** A backup of `tokens` tokens for `rid` is refused: the copy raises, or the host budget does not allow it. */
  ghost predicate SaveRefused(h: Terms, saved: Backups, rid: string, tokens: nat, fails: string -> bool) {
    fails(rid) || OverBudget(h, saved, rid, tokens)
  }

  /** What backups of these sizes cost together. */
  function CostOf(h: Terms, sizes: seq<nat>): nat {
    if sizes == [] then 0 else CostOf(h, sizes[..|sizes| - 1]) + Cost(h, sizes[|sizes| - 1])
  }

  function Sizes(reqs: seq<Req>): (s: seq<nat>)
    ensures |s| == |reqs| && forall i :: 0 <= i < |reqs| ==> s[i] == |reqs[i].tokens|
  {
    seq(|reqs|, i requires 0 <= i < |reqs| => |reqs[i].tokens|)
  }

  function ReserveSizes(reserves: map<string, Reserve>, rids: seq<string>): (s: seq<nat>)
    requires forall rid :: rid in rids ==> rid in reserves
    ensures |s| == |rids| && forall i :: 0 <= i < |rids| ==> s[i] == |reserves[rids[i]].tokens|
  {
    seq(|rids|, i requires 0 <= i < |rids| => assert rids[i] in rids; |reserves[rids[i]].tokens|)
  }

  /** The backups grew by no more than what was saved. */
  ghost predicate Paid(h: Terms, saved0: Backups, saved: Backups, sizes: seq<nat>) {
    TotalBytes(saved, h.rowBytes) <= TotalBytes(saved0, h.rowBytes) + CostOf(h, sizes)
  }

  lemma PaidNothing(h: Terms, saved: Backups, reserves: map<string, Reserve>, rids: seq<string>)
    requires forall rid :: rid in rids ==> rid in reserves
    ensures Paid(h, saved, saved, ReserveSizes(reserves, rids[..0]))
  {
  }

  lemma PaidMore(h: Terms, saved0: Backups, saved: Backups, saved': Backups, sizes: seq<nat>, rid: string, tokens: Path)
    requires Paid(h, saved0, saved, sizes) && rid in saved' && saved' == saved[rid := saved'[rid]]
    requires saved'[rid].tokens == tokens && |saved'[rid].host| == h.layers
    ensures Paid(h, saved0, saved', sizes + [|tokens|])
  {
    TotalUpdated(saved, h.rowBytes, rid, saved'[rid]);
    TotalShrinks(saved, h.rowBytes, rid);
    assert (sizes + [|tokens|])[..|sizes|] == sizes;
  }

  lemma {:induction false} CostAppend(h: Terms, a: seq<nat>, b: seq<nat>)
    ensures CostOf(h, a + b) == CostOf(h, a) + CostOf(h, b)
    decreases |b|
  {
    if b == [] {
      assert a + b == a;
    } else {
      CostAppend(h, a, b[..|b| - 1]);
      assert (a + b)[..|a + b| - 1] == a + b[..|b| - 1];
    }
  }

  /** Requests drawn from a batch, each once, cost no more than the batch. */
  lemma {:induction false} CostDrawn(h: Terms, part: seq<Req>, whole: seq<Req>)
    requires NoDup(part) && forall r :: r in part ==> r in whole
    ensures CostOf(h, Sizes(part)) <= CostOf(h, Sizes(whole))
    decreases |part|
  {
    if part != [] {
      var n, x := |part| - 1, part[|part| - 1];
      assert x in part;
      var i :| 0 <= i < |whole| && whole[i] == x;
      PopLast(part);
      forall r | r in part[..n] ensures r in RemoveAt(whole, i) {
        StillThere(whole, i, r);
      }
      CostDrawn(h, part[..n], RemoveAt(whole, i));
      CostRemoved(h, whole, i);
      assert Sizes(part)[..n] == Sizes(part[..n]);
    }
  }

  lemma StillThere(reqs: seq<Req>, i: nat, r: Req)
    requires i < |reqs| && r in reqs && r != reqs[i]
    ensures r in RemoveAt(reqs, i)
  {
    assert reqs == reqs[..i] + [reqs[i]] + reqs[i + 1..];
  }

  lemma CostRemoved(h: Terms, reqs: seq<Req>, i: nat)
    requires i < |reqs|
    ensures CostOf(h, Sizes(reqs)) == CostOf(h, Sizes(RemoveAt(reqs, i))) + Cost(h, |reqs[i].tokens|)
  {
    var a, b := Sizes(reqs[..i]), Sizes(reqs[i + 1..]);
    assert Sizes(reqs) == a + [|reqs[i].tokens|] + b && Sizes(RemoveAt(reqs, i)) == a + b;
    CostAppend(h, a + [|reqs[i].tokens|], b);
    CostAppend(h, a, [|reqs[i].tokens|]);
    CostAppend(h, a, b);
    assert CostOf(h, [|reqs[i].tokens|]) == Cost(h, |reqs[i].tokens|);
  }

  // ---- Retraction --------------------------------------------------------------------------------

  function Survives(victims: seq<Req>): Req -> bool { r => r !in victims }

  function RemoveAt<T>(s: seq<T>, v: nat): seq<T>
    requires v < |s|
  {
    s[..v] + s[v + 1..]
  }

  function OwnSlots(reqs: seq<Req>): (r: set<Slot>)
    ensures forall s :: s in r <==> exists q :: q in reqs && s in Own(q)
  {
    set q, s | q in reqs && s in Own(q) :: s
  }

  /** What retraction changes. */
  datatype Snap = Snap(reqs: seq<Req>, waiting: seq<string>, device: Device, saved: Backups)

  ghost predicate SavedReq(saved: Backups, r: Req, layers: seq<map<Slot, int>>) {
    r.rid in saved && saved[r.rid].tokens == r.tokens && Copies(saved[r.rid], layers, r.slots)
  }

  /** `a` comes before `b` in the plan. */
  predicate Ahead(order: Places<string>, a: Req, b: Req) {
    a.rid in order && b.rid in order && Before(order[a.rid], order[b.rid])
  }

  ghost predicate Ranked(order: Places<string>, reqs: seq<Req>) {
    && (forall r :: r in reqs ==> r.rid in order)
    && (forall i, j :: 0 <= i < j < |reqs| ==> Ahead(order, reqs[i], reqs[j]) || Ahead(order, reqs[j], reqs[i]))
  }

  ghost predicate LastIn(order: Places<string>, reqs: seq<Req>, v: nat)
    requires v < |reqs|
  {
    forall i :: 0 <= i < |reqs| && i != v ==> Ahead(order, reqs[i], reqs[v])
  }

  /** Each retraction happened because the batch did not fit. */
  ghost predicate NoEarlier(reqs: seq<Req>, victims: seq<Req>, fits: seq<string> -> bool) {
    forall i :: 0 <= i < |victims| ==> !fits(Rids(Filter(reqs, Survives(victims[..i]))))
  }

  ghost predicate AllSaved(saved: Backups, victims: seq<Req>, layers: seq<map<Slot, int>>) {
    forall v :: v in victims ==> SavedReq(saved, v, layers)
  }

  ghost predicate OthersSaved(saved0: Backups, saved: Backups, victims: seq<Req>) {
    forall rid :: rid in saved0 && rid !in Rids(victims) ==> rid in saved && saved[rid] == saved0[rid]
  }

  /** Each victim comes before the earlier ones, so nobody is retracted twice. */
  ghost predicate Descending(order: Places<string>, victims: seq<Req>) {
    forall i, j :: 0 <= i < j < |victims| ==> Ahead(order, victims[j], victims[i]) && victims[i] != victims[j]
  }

  ghost predicate AllAhead(order: Places<string>, reqs: seq<Req>, victims: seq<Req>) {
    forall v, r :: v in victims && r in reqs ==> Ahead(order, r, v)
  }

  /** From `s0` to `s`, exactly `victims` were retracted, one by one, each time because the batch did not fit. They come
      after every survivor in the plan's order; each is saved, requeued once, and gives back its slots and its lock. */
  ghost predicate Retracted(s0: Snap, s: Snap, victims: seq<Req>, order: Places<string>, fits: seq<string> -> bool) {
    && (forall v :: v in victims ==> v in s0.reqs)
    && s.reqs == Filter(s0.reqs, Survives(victims))
    && s.waiting == s0.waiting + Rids(victims)
    && s.device == s0.device.(free := s0.device.free + OwnSlots(victims), pins := s.device.pins)
    && s.device.pins + multiset(Nodes(victims)) == s0.device.pins
    && AllSaved(s.saved, victims, s0.device.layers) && AllAhead(order, s.reqs, victims)
    && NoEarlier(s0.reqs, victims, fits)
    && OthersSaved(s0.saved, s.saved, victims) && Descending(order, victims)
  }

  /** One more victim. */
  function Retract(s: Snap, v: nat, saved: Backups): Snap
    requires v < |s.reqs|
  {
    var x := s.reqs[v];
    Snap(RemoveAt(s.reqs, v), s.waiting + [x.rid],
         s.device.(free := s.device.free + Members'(Own(x)), pins := s.device.pins - multiset{x.node}), saved)
  }

  function Members'(slots: seq<Slot>): set<Slot> { set s | s in slots }

  /** Slot `s` of `x` lies beyond the part that belongs to the cache. */
  ghost predicate InTail(x: Req, s: Slot) { exists k :: x.prefixLen <= k < |x.slots| && x.slots[k] == s }

  /** The victim leaves the batch for the end of the waiting line. Its tail becomes free and its lock goes, but its part
      of the cache stays where it is. */
  ghost predicate GivesBack(before: Snap, v: nat, after: Snap)
    requires v < |before.reqs|
  {
    var x := before.reqs[v];
    && after.reqs == before.reqs[..v] + before.reqs[v + 1..] && after.waiting == before.waiting + [x.rid]
    && (forall s :: s in after.device.free <==> s in before.device.free || InTail(x, s))
    && after.device.pins == before.device.pins - multiset{x.node}
    && after.device == before.device.(free := after.device.free, pins := after.device.pins)
  }

  lemma OwnIsTail(d: Device, x: Req)
    requires ReqOk(d, x)
    ensures forall s :: s in Own(x) <==> InTail(x, s)
  {
    forall s | InTail(x, s) ensures s in Own(x) {
      var k :| x.prefixLen <= k < |x.slots| && x.slots[k] == s;
      assert Own(x)[k - x.prefixLen] == s;
    }
  }

  /** Over all retractions of a step: a slot becomes free exactly if it lies in the tail of a victim, and no such slot
      was free or cached before. */
  lemma TailsBecomeFree(s0: Snap, s: Snap, victims: seq<Req>, order: Places<string>, fits: seq<string> -> bool)
    requires Owned(s0.device, s0.reqs) && Retracted(s0, s, victims, order, fits)
    ensures forall x :: x in s.device.free <==> x in s0.device.free || exists q :: q in victims && InTail(q, x)
    ensures forall q, x :: q in victims && InTail(q, x) ==> x !in s0.device.free && x !in s0.device.tree.Values
    ensures s.device.tree == s0.device.tree && s.device.layers == s0.device.layers
  {
    forall q | q in victims ensures ReqOk(s0.device, q) && forall x :: x in Own(q) <==> InTail(q, x) {
      assert q in s0.reqs;
      OwnIsTail(s0.device, q);
    }
  }

  lemma {:induction false} RemoveIsFilter(reqs: seq<Req>, v: nat)
    requires v < |reqs| && NoDup(reqs)
    ensures RemoveAt(reqs, v) == Filter(reqs, (r: Req) => r != reqs[v])
  {
    var keep := (r: Req) => r != reqs[v];
    assert reqs == reqs[..v] + [reqs[v]] + reqs[v + 1..];
    FilterAppend(reqs[..v] + [reqs[v]], reqs[v + 1..], keep);
    FilterAppend(reqs[..v], [reqs[v]], keep);
    FilterAll(reqs[..v], keep);
    FilterAll(reqs[v + 1..], keep);
    assert Filter([reqs[v]], keep) == [];
    assert Filter(reqs[..v] + [reqs[v]], keep) == reqs[..v];
  }

  lemma NoEarlierNext(reqs: seq<Req>, victims: seq<Req>, fits: seq<string> -> bool, x: Req)
    requires NoEarlier(reqs, victims, fits) && !fits(Rids(Filter(reqs, Survives(victims))))
    ensures NoEarlier(reqs, victims + [x], fits)
  {
    var more := victims + [x];
    forall i | 0 <= i < |more| ensures !fits(Rids(Filter(reqs, Survives(more[..i])))) {
      assert more[..i] == if i == |victims| then victims else victims[..i];
    }
  }

  lemma ReqsNext(s0: seq<Req>, reqs: seq<Req>, victims: seq<Req>, v: nat)
    requires reqs == Filter(s0, Survives(victims)) && v < |reqs| && NoDup(reqs)
    ensures RemoveAt(reqs, v) == Filter(s0, Survives(victims + [reqs[v]]))
    ensures reqs[v] in s0
  {
    RemoveIsFilter(reqs, v);
    FilterMembers(s0, Survives(victims));
    FilterBoth(s0, Survives(victims), (r: Req) => r != reqs[v], Survives(victims + [reqs[v]]));
  }

  lemma AheadNext(order: Places<string>, reqs: seq<Req>, victims: seq<Req>, v: nat)
    requires v < |reqs| && LastIn(order, reqs, v) && AllAhead(order, reqs, victims)
    ensures AllAhead(order, RemoveAt(reqs, v), victims + [reqs[v]])
  {
    forall x, r | x in victims + [reqs[v]] && r in RemoveAt(reqs, v) ensures Ahead(order, r, x) {
      var i :| 0 <= i < |reqs| && i != v && reqs[i] == r;
    }
  }

  lemma DescendingNext(order: Places<string>, s0: seq<Req>, reqs: seq<Req>, victims: seq<Req>, v: nat)
    requires v < |reqs| && reqs == Filter(s0, Survives(victims)) && AllAhead(order, reqs, victims)
      && Descending(order, victims)
    ensures Descending(order, victims + [reqs[v]])
  {
    FilterMembers(s0, Survives(victims));
    assert reqs[v] in reqs;
  }

  lemma SavedNext(saved: Backups, saved': Backups, victims: seq<Req>, x: Req, layers: seq<map<Slot, int>>)
    requires AllSaved(saved, victims, layers) && SavedReq(saved', x, layers) && saved' == saved[x.rid := saved'[x.rid]]
    requires forall r :: r in victims ==> r.rid != x.rid
    ensures AllSaved(saved', victims + [x], layers)
  {
    forall v | v in victims + [x] ensures SavedReq(saved', v, layers) {
      assert v != x ==> SavedReq(saved, v, layers);
    }
  }

  lemma RidsMore(victims: seq<Req>, x: Req)
    ensures Rids(victims + [x]) == Rids(victims) + [x.rid]
  {
  }

  lemma OthersNext(saved0: Backups, saved: Backups, saved': Backups, victims: seq<Req>, x: Req)
    requires OthersSaved(saved0, saved, victims) && x.rid in saved' && saved' == saved[x.rid := saved'[x.rid]]
    ensures OthersSaved(saved0, saved', victims + [x])
  {
    RidsMore(victims, x);
    forall rid | rid in saved0 && rid !in Rids(victims + [x]) ensures rid in saved' && saved'[rid] == saved0[rid] {
      assert rid in Rids(victims) ==> rid in Rids(victims + [x]);
      assert x.rid in Rids(victims + [x]);
    }
  }

  lemma RetractedNext(s0: Snap, s: Snap, victims: seq<Req>, order: Places<string>, fits: seq<string> -> bool, v: nat,
                      saved: Backups)
    requires Retracted(s0, s, victims, order, fits) && Owned(s.device, s.reqs) && v < |s.reqs| && !fits(Rids(s.reqs))
      && LastIn(order, s.reqs, v)
    requires SavedReq(saved, s.reqs[v], s.device.layers) && saved == s.saved[s.reqs[v].rid := saved[s.reqs[v].rid]]
    requires forall r :: r in victims ==> r.rid != s.reqs[v].rid
    ensures Retracted(s0, Retract(s, v, saved), victims + [s.reqs[v]], order, fits)
  {
    hide Filter, Own, SavedReq, AllSaved, AllAhead, NoEarlier, OthersSaved, Descending, OwnSlots, Nodes, Rids, LastIn,
      RemoveAt, DeviceOk, ReqOk, Apart;
    var x := s.reqs[v];
    OwnedOnce(s.device, s.reqs);
    ReqsNext(s0.reqs, s.reqs, victims, v);
    AheadNext(order, s.reqs, victims, v);
    SavedNext(s.saved, saved, victims, x, s.device.layers);
    NoEarlierNext(s0.reqs, victims, fits, x);
    OwnMore(victims, x);
    NodesMore(s.device.pins, s0.device.pins, victims, x, s.reqs, v);
    RidsMore(victims, x);
    OthersNext(s0.saved, s.saved, saved, victims, x);
    DescendingNext(order, s0.reqs, s.reqs, victims, v);
  }

  lemma OwnedOnce(d: Device, reqs: seq<Req>)
    requires Owned(d, reqs)
    ensures NoDup(reqs) && NoDup(Rids(reqs))
  {
    forall i, j | 0 <= i < j < |reqs| ensures reqs[i].rid != reqs[j].rid {
      assert Apart(reqs[i], reqs[j]);
    }
  }

  lemma OwnMore(victims: seq<Req>, x: Req)
    ensures OwnSlots(victims + [x]) == OwnSlots(victims) + Members'(Own(x))
  {
    forall s ensures s in OwnSlots(victims + [x]) <==> s in OwnSlots(victims) || s in Own(x) {
      if s in Own(x) {
        assert x in victims + [x];
      }
      if s in OwnSlots(victims) {
        var q :| q in victims && s in Own(q);
        assert q in victims + [x];
      }
    }
  }

  lemma NodesMore(pins: multiset<Path>, pins0: multiset<Path>, victims: seq<Req>, x: Req, reqs: seq<Req>, v: nat)
    requires pins + multiset(Nodes(victims)) == pins0 && v < |reqs| && reqs[v] == x && multiset(Nodes(reqs)) <= pins
    ensures pins - multiset{x.node} + multiset(Nodes(victims + [x])) == pins0
    ensures multiset(Nodes(RemoveAt(reqs, v))) <= pins - multiset{x.node} && x.node in pins
  {
    hide Nodes, RemoveAt;
    NodesWithout(reqs, v);
    NodesWith(victims, x);
    OneFewer(pins, multiset(Nodes(reqs)), multiset(Nodes(RemoveAt(reqs, v))), x.node);
  }

  lemma NodesWith(victims: seq<Req>, x: Req)
    ensures multiset(Nodes(victims + [x])) == multiset(Nodes(victims)) + multiset{x.node}
  {
    assert Nodes(victims + [x]) == Nodes(victims) + [x.node];
  }

  lemma NodesWithout(reqs: seq<Req>, v: nat)
    requires v < |reqs|
    ensures multiset(Nodes(reqs)) == multiset(Nodes(RemoveAt(reqs, v))) + multiset{reqs[v].node}
  {
    NodesSplit(reqs, v);
    hide Nodes, RemoveAt;
    MiddleApart(Nodes(reqs[..v]), reqs[v].node, Nodes(reqs[v + 1..]));
  }

  lemma NodesSplit(reqs: seq<Req>, v: nat)
    requires v < |reqs|
    ensures Nodes(reqs) == Nodes(reqs[..v]) + [reqs[v].node] + Nodes(reqs[v + 1..])
    ensures Nodes(RemoveAt(reqs, v)) == Nodes(reqs[..v]) + Nodes(reqs[v + 1..])
  {
  }

  lemma MiddleApart<T>(a: seq<T>, x: T, b: seq<T>)
    ensures multiset(a + [x] + b) == multiset(a + b) + multiset{x}
  {
  }

  lemma OneFewer(pins: multiset<Path>, all: multiset<Path>, rest: multiset<Path>, node: Path)
    requires all <= pins && all == rest + multiset{node}
    ensures rest <= pins - multiset{node} && node in pins
  {
  }

  /** What is left owns its slots as before. */
  lemma RetractOwned(s: Snap, v: nat, saved: Backups)
    requires Owned(s.device, s.reqs) && v < |s.reqs|
    ensures Owned(Retract(s, v, saved).device, Retract(s, v, saved).reqs)
  {
    hide DeviceOk, ReqOk, Apart, Own, Nodes;
    var x, d', rest := s.reqs[v], Retract(s, v, saved).device, RemoveAt(s.reqs, v);
    NodesMore(s.device.pins, s.device.pins, [], x, s.reqs, v);
    assert ReqOk(s.device, x);
    FreedOk(s.device, x);
    forall i | 0 <= i < |rest| ensures ReqOk(d', rest[i]) {
      var j := if i < v then i else i + 1;
      assert rest[i] == s.reqs[j] && ReqOk(s.device, s.reqs[j]);
      assert if j < v then Apart(s.reqs[j], x) else Apart(x, s.reqs[j]);
      OthersOk(s.device, x, rest[i]);
    }
    forall i, j | 0 <= i < j < |rest| ensures Apart(rest[i], rest[j]) {
      assert Apart(s.reqs[if i < v then i else i + 1], s.reqs[if j < v then j else j + 1]);
    }
  }

  /** The device after `x` gave up its slots and its lock. */
  function Freed(d: Device, x: Req): Device { d.(free := d.free + Members'(Own(x)), pins := d.pins - multiset{x.node}) }

  lemma FreedOk(d: Device, x: Req)
    requires DeviceOk(d) && ReqOk(d, x)
    ensures DeviceOk(Freed(d, x))
  {
  }

  lemma OthersOk(d: Device, x: Req, r: Req)
    requires ReqOk(d, r) && (Apart(r, x) || Apart(x, r))
    ensures ReqOk(Freed(d, x), r)
  {
  }

  // ---- The window's cohort ---------------------------------------------------------------------------

  function IndexOf(cohort: seq<string>, x: string): (i: nat)
    requires x in cohort
    ensures i < |cohort| && cohort[i] == x && x !in cohort[..i]
  {
    if cohort[0] == x then 0 else 1 + IndexOf(cohort[1..], x)
  }

  /** `{rid: i for i, rid in enumerate(cohort)}`. */
  function OrderOf(cohort: seq<string>): Places<string> { map x | x in cohort :: Place(0, IndexOf(cohort, x)) }

  lemma PrefixOrder(c0: seq<string>, n: nat, x: string)
    requires NoDup(c0) && n <= |c0| && x in c0[..n]
    ensures x in c0 && IndexOf(c0, x) == IndexOf(c0[..n], x)
  {
    assert c0[IndexOf(c0[..n], x)] == x;
  }

  /** The cohort is a prefix of what it was; it keeps every survivor and no victim. */
  ghost predicate Serves(c0: seq<string>, c: seq<string>, reqs: seq<Req>, victims: seq<Req>) {
    c <= c0 && (forall r :: r in reqs ==> r.rid in c) && (forall v :: v in victims ==> v.rid !in c)
  }

  lemma ServesNext(c0: seq<string>, c: seq<string>, reqs: seq<Req>, victims: seq<Req>, v: nat)
    requires NoDup(c0) && Serves(c0, c, reqs, victims) && v < |reqs| && LastIn(OrderOf(c), reqs, v)
    ensures Serves(c0, c[..IndexOf(c, reqs[v].rid)], RemoveAt(reqs, v), victims + [reqs[v]])
  {
    var x := reqs[v];
    var cut := c[..IndexOf(c, x.rid)];
    forall r | r in RemoveAt(reqs, v) ensures r.rid in cut {
      var i :| 0 <= i < |reqs| && i != v && reqs[i] == r;
      assert Ahead(OrderOf(c), r, x);
      assert cut[IndexOf(c, r.rid)] == r.rid;
    }
  }

  lemma SameLast(c0: seq<string>, c: seq<string>, reqs: seq<Req>, v: nat)
    requires NoDup(c0) && c <= c0 && v < |reqs| && LastIn(OrderOf(c), reqs, v)
    ensures LastIn(OrderOf(c0), reqs, v)
  {
    forall i | 0 <= i < |reqs| && i != v ensures Ahead(OrderOf(c0), reqs[i], reqs[v]) {
      assert Ahead(OrderOf(c), reqs[i], reqs[v]);
      assert c == c0[..|c|];
      PrefixOrder(c0, |c|, reqs[i].rid);
      PrefixOrder(c0, |c|, reqs[v].rid);
    }
  }

  lemma OrderRanks(c: seq<string>, reqs: seq<Req>)
    requires NoDup(Rids(reqs)) && forall r :: r in reqs ==> r.rid in c
    ensures Ranked(OrderOf(c), reqs)
  {
    forall i, j | 0 <= i < j < |reqs|
      ensures Ahead(OrderOf(c), reqs[i], reqs[j]) || Ahead(OrderOf(c), reqs[j], reqs[i]) {
      assert Rids(reqs)[i] != Rids(reqs)[j];
      assert reqs[i] in reqs && reqs[j] in reqs;
    }
  }

  lemma AheadTrans(order: Places<string>, a: Req, b: Req, c: Req)
    requires Ahead(order, a, b) && Ahead(order, b, c)
    ensures Ahead(order, a, c)
  {
  }

  /** `max(range(len(reqs)), key=...)`: the position of the lowest priority. */
  method LowestPriority(reqs: seq<Req>, order: Places<string>) returns (v: nat)
    requires reqs != [] && Ranked(order, reqs)
    ensures v < |reqs| && LastIn(order, reqs, v)
  {
    v := 0;
    for i := 1 to |reqs|
      invariant v < i && forall k :: 0 <= k < i && k != v ==> Ahead(order, reqs[k], reqs[v])
    {
      if Ahead(order, reqs[v], reqs[i]) {
        forall k | 0 <= k < i && k != v ensures Ahead(order, reqs[k], reqs[i]) {
          AheadTrans(order, reqs[k], reqs[v], reqs[i]);
        }
        v := i;
      }
    }
  }

  // ---- The scheduler's part -----------------------------------------------------------------------------

  datatype Outcome = EnoughRoom | SingleRequest | SaveError

  class Scheduler {
    const device: DeviceKV
    const host: HostKV
    const window: Option<SchedulingWindow>
    var batch: seq<Req>
    var waiting: seq<string>
    var reserves: map<string, Reserve>

    function Now(): Snap
      reads this, device, host
    {
      Snap(batch, waiting, device.State(), host.saved)
    }

    ghost predicate Linked()
      reads this, device, host
    {
      host.device == device && host.Valid()
    }

    constructor (device: DeviceKV, host: HostKV, window: Option<SchedulingWindow>)
      requires host.device == device && host.Valid()
      ensures Linked() && this.device == device && this.host == host && this.window == window && batch == []
        && waiting == [] && reserves == map[]
    {
      this.device, this.host, this.window, batch, waiting, reserves := device, host, window, [], [], map[];
    }

    /** `release_reserves`: every reserve is saved before it is unlocked; when a save fails, its lock and all later ones
        stay. */
    method ReleaseReserves(rids: seq<string>, preserve: bool, fails: string -> bool) returns (r: Release, k: nat)
      requires Linked() && NoDup(rids)
        && (forall rid :: rid in rids ==> rid in reserves && reserves[rid].tokens <= reserves[rid].node)
      requires multiset(ReserveNodes(reserves, rids)) <= device.pins
      modifies this`reserves, device, host
      ensures Linked() && k <= |rids| && r != LostPrefix && (r == Released <==> k == |rids|)
      ensures ReleasedUpTo(old(device.State()), device.State(), old(reserves), reserves, host.saved, rids, k, preserve)
      ensures BackupsKept(old(host.saved), host.saved, rids)
      ensures r == SaveFailed ==> RefusedAt(old(host.Agreed()), old(reserves), host.saved, rids, k, preserve, fails)
      ensures Paid(old(host.Agreed()), old(host.saved), host.saved, ReserveSizes(old(reserves), rids[..k]))
    {
      hide SavedAs, DeviceOk, HostOk, Copies, ReleasedUpTo, BackupsKept, ReserveNodes, ReleasesOne, RefusedAt, Paid,
        ReserveSizes;
      ghost var d0, reserves0, saved0, h := device.State(), reserves, host.saved, host.Agreed();
      k := 0;
      ReleaseStarts(d0, reserves0, saved0, rids, preserve);
      PaidNothing(h, saved0, reserves0, rids);
      while k < |rids|
        invariant k <= |rids| && Linked()
          && ReleasedUpTo(d0, device.State(), reserves0, reserves, host.saved, rids, k, preserve)
        invariant BackupsKept(saved0, host.saved, rids)
          && Paid(h, saved0, host.saved, ReserveSizes(reserves0, rids[..k]))
      {
        StillReserved(d0, device.State(), reserves0, reserves, host.saved, rids, k, preserve);
        ghost var d, was, saved := device.State(), reserves, host.saved;
        r := ReleaseOne(rids[k], preserve, fails);
        OnePaid(h, d, device.State(), reserves0, was, reserves, saved0, saved, host.saved, rids, k, preserve, fails, r);
        AfterOne(d0, d, device.State(), reserves0, was, reserves, saved0, saved, host.saved, rids, k, preserve, h,
          fails, r);
        if r != Released {
          return;
        }
        k := k + 1;
      }
      r := Released;
    }

    /** One reserve: saved first, then unlocked and forgotten. */
    method ReleaseOne(rid: string, preserve: bool, fails: string -> bool) returns (r: Release)
      requires Linked() && rid in reserves && reserves[rid].tokens <= reserves[rid].node
        && reserves[rid].node in device.pins
      modifies this`reserves, device, host
      ensures Linked() && r != LostPrefix
      ensures ReleasesOne(old(device.State()), device.State(), old(reserves), reserves, old(host.saved), host.saved,
        rid, preserve, old(host.Agreed()), fails, r)
    {
      hide SavedAs, DeviceOk, HostOk, Copies, MatchLen, Matched, Backed, ReleasesOne, OverBudget;
      ghost var d, was, saved, h := device.State(), reserves, host.saved, host.Agreed();
      var reserve := reserves[rid];
      if preserve {
        PinnedIsMatched(device.State(), reserve);
        var matched := device.MatchPrefix(reserve.tokens);
        if |matched| != |reserve.tokens| {
          return LostPrefix;
        }
        var saving := host.Save(rid, reserve.tokens, matched, fails(rid));
        if saving != Saved {
          NothingReleased(d, was, saved, rid, preserve, h, fails);
          return SaveFailed;
        }
        NowSaved(d, d, reserve, host.saved, rid);
      }
      device.DecLockRef(reserve.node);
      reserves := reserves - {rid};
      r := Released;
      OneReleased(d, was, saved, host.saved, rid, preserve, h, fails);
    }

    /** One retraction: the victim is saved, then gives up its slots and its lock, and is requeued. Nothing changes when
        the save fails. */
    method RetractAt(v: nat, fails: string -> bool) returns (ok: bool)
      requires Linked() && v < |batch| && Owned(device.State(), batch)
      modifies this`batch, this`waiting, device, host
      ensures Linked()
      ensures RetractsTo(old(Now()), v, Now(), old(host.Agreed()), fails, ok)
      ensures ok ==> GivesBack(old(Now()), v, Now())
    {
      hide DeviceOk, HostOk, Copies, Distinct, Backed, Own, Owned, RemoveAt, RetractsTo, ReqOk, Members', OverBudget;
      ghost var h := host.Agreed();
      var x := batch[v];
      ghost var before := Now();
      MayRetract(before, v);
      var saving := host.Save(x.rid, x.tokens, x.slots, fails(x.rid));
      if saving != Saved {
        NotRetracted(before, v, h, fails);
        return false;
      }
      device.Free(Own(x));
      device.DecLockRef(x.node);
      batch := RemoveAt(batch, v);
      waiting := waiting + [x.rid];
      ok := true;
      NowRetracted(before, v, Now(), h, fails);
      NowGiven(before, v, Now());
    }

    /** `make_decode_room`: `fitsNow` and `fits` answer the memory check for the batch as it is and for what is left of
        it later; `line` lists the reserves, `keys` are the controller's keys. */
    method MakeDecodeRoom(line: seq<string>, keys: Places<string>, fitsNow: bool, fits: seq<string> -> bool,
                          fails: string -> bool)
        returns (r: Outcome, ghost mid: Snap, ghost victims: seq<Req>, ghost released: nat)
      requires Linked() && Owned(device.State(), batch) && ReservesOk(device.State(), reserves, line)
      requires multiset(Nodes(batch)) + multiset(ReserveNodes(reserves, line)) <= device.pins
      requires window.Some? ==> WindowOk(window.value.limits, window.value.State())
      requires window.Some? ==> forall q :: q in batch ==> q.rid in Head(window.value.limits, window.value.cohort)
      requires window.None? ==> Ranked(keys, batch)
      modifies this, host, device, if window.Some? then {window.value} else {}
      ensures Linked() && released <= |line|
      ensures fitsNow ==> r == EnoughRoom && Now() == old(Now()) && reserves == old(reserves) && (window.Some? ==>
        window.value.State() == old(window.value.State()))
      ensures !fitsNow ==>
        var order := if window.Some? then OrderOf(Head(window.value.limits, old(window.value.cohort))) else keys;
        MakesRoom(old(Now()), old(reserves), reserves, line, released, mid, Now(), victims, order, fits,
          old(host.Agreed()), fails, r)
      ensures !fitsNow && released < |line| && window.Some? ==> window.value.State() == old(window.value.State())
      ensures Affordable(old(host.Agreed()), old(host.saved), old(reserves), line, old(batch), fails) ==>
        r == EnoughRoom || r == SingleRequest
      ensures !fitsNow && released == |line| && window.Some? ==>
        && WindowOk(window.value.limits, window.value.State())
        && Serves(Head(window.value.limits, old(window.value.cohort)), window.value.cohort, batch, victims)
    {
      hide Retracted, Owned, Serves, WindowOk, Ranked, RetractsUntil, HostOk, DeviceOk, OrderOf, ReleasedUpTo,
        MakesRoom, Head, RefusedAt, Paid, Affordable, ReserveSizes;
      victims, released, mid := [], 0, Now();
      if fitsNow {
        return EnoughRoom, mid, victims, released;
      }
      ghost var before, reserves0, h := Now(), reserves, host.Agreed();
      ghost var affordable := Affordable(h, host.saved, reserves, line, batch, fails);
      var release, k := ReleaseReserves(line, true, fails);
      released, mid := k, Now();
      ghost var order := if window.Some? then OrderOf(Head(window.value.limits, window.value.cohort)) else keys;
      if release != Released {
        r := SaveError;
        RoomReleased(before, reserves0, reserves, line, released, mid, order, fits, h, fails);
        NoErrorExpected(before, reserves0, reserves, line, released, mid, mid, [], order, fits, h, fails, r);
        return;
      }
      AfterRelease(before.device, mid, reserves0, reserves, line);
      if window.Some? {
        window.value.DropReserve();
      }
      r, victims := RetractUntil(keys, fits, fails);
      SameTerms(before.device, mid.device, reserves0, reserves, mid.saved, line, host.rowBytes, host.limitBytes);
      RoomMadeBy(before, reserves0, reserves, line, mid, Now(), victims, order, fits, h, fails, r);
      NoErrorExpected(before, reserves0, reserves, line, |line|, mid, Now(), victims, order, fits, h, fails, r);
    }

    /** The retraction loop, once every reserve is released. */
    method RetractUntil(keys: Places<string>, fits: seq<string> -> bool, fails: string -> bool)
        returns (r: Outcome, ghost victims: seq<Req>)
      requires Linked() && Owned(device.State(), batch)
      requires window.Some? ==> WindowOk(window.value.limits, window.value.State()) && forall q :: q in batch ==>
        q.rid in window.value.cohort
      requires window.None? ==> Ranked(keys, batch)
      modifies this`batch, this`waiting, device, host, if window.Some? then {window.value} else {}
      ensures Linked()
      ensures var order := if window.Some? then OrderOf(old(window.value.cohort)) else keys;
        RetractsUntil(old(Now()), Now(), victims, order, fits, old(host.Agreed()), fails, r)
      ensures window.Some? ==>
        WindowOk(window.value.limits, window.value.State())
          && Serves(old(window.value.cohort), window.value.cohort, batch, victims)
    {
      hide Retracted, Owned, Serves, WindowOk, RetractsTo, LastIn, Ranked, RetractsUntil, HostOk, DeviceOk, Pressed,
        OrderOf, SaveRefused;
      ghost var s0, h := Now(), host.Agreed();
      ghost var c0 := if window.Some? then window.value.cohort else [];
      ghost var order0 := if window.Some? then OrderOf(c0) else keys;
      victims := [];
      PressureStarts(s0, order0, fits, h);
      if window.Some? {
        ServesAll(c0, batch);
        CohortOnce(window.value.limits, window.value.State());
      }
      while !fits(Rids(batch))
        invariant Linked() && host.Agreed() == h && Pressed(s0, Now(), victims, order0, fits, h)
        invariant window.Some? ==>
          WindowOk(window.value.limits, window.value.State()) && Serves(c0, window.value.cohort, batch, victims)
        invariant window.None? ==> Ranked(keys, batch)
        decreases |batch|
      {
        if |batch| <= 1 {
          UntilAlone(s0, Now(), victims, order0, fits, h, fails);
          return SingleRequest, victims;
        }
        PressedParts(s0, Now(), victims, order0, fits, h);
        var order := keys;
        if window.Some? {
          RankedByCohort(c0, window.value.cohort, batch, victims);
          order := OrderOf(window.value.cohort);
        }
        var v := LowestPriority(batch, order);
        ghost var s := Now();
        var x := batch[v];
        if window.Some? {
          LastByCohort(c0, window.value.cohort, batch, victims, v);
        } else {
          RankedStill(keys, batch, v);
        }
        var ok := RetractAt(v, fails);
        Continues(s0, s, victims, order0, fits, h, fails, v, Now(), ok);
        if !ok {
          UntilFailed(s0, Now(), victims, order0, fits, h, fails, v);
          return SaveError, victims;
        }
        victims := victims + [x];
        if window.Some? {
          RetainedCohort(window.value.limits, window.value.State(), x.rid);
          window.value.RetainPrefix(IndexOf(window.value.cohort, x.rid));
        }
      }
      UntilFits(s0, Now(), victims, order0, fits, h, fails);
      r := EnoughRoom;
    }
  }

  /** A retraction, or nothing at all, exactly when the victim's backup is refused. */
  ghost predicate RetractsTo(before: Snap, v: nat, after: Snap, h: Terms, fails: string -> bool, ok: bool)
    requires v < |before.reqs|
  {
    var x := before.reqs[v];
    && (ok <==> !SaveRefused(h, before.saved, x.rid, |x.tokens|, fails))
    && if !ok then after == before
       else
         && after == Retract(before, v, after.saved) && Owned(after.device, after.reqs)
         && |after.device.layers| == h.layers
         && SavedReq(after.saved, x, before.device.layers) && after.saved == before.saved[x.rid := after.saved[x.rid]]
  }

  lemma NotRetracted(before: Snap, v: nat, h: Terms, fails: string -> bool)
    requires v < |before.reqs| && SaveRefused(h, before.saved, before.reqs[v].rid, |before.reqs[v].tokens|, fails)
    ensures RetractsTo(before, v, before, h, fails, false)
  {
  }

  lemma MayRetract(s: Snap, v: nat)
    requires v < |s.reqs| && Owned(s.device, s.reqs)
    ensures var x := s.reqs[v];
      DeviceOk(s.device) && |x.tokens| == |x.slots| && Backed(s.device.layers, x.slots) && Distinct(Own(x), s.device)
        && x.node in s.device.pins
  {
    assert ReqOk(s.device, s.reqs[v]);
    NodesMore(s.device.pins, s.device.pins, [], s.reqs[v], s.reqs, v);
  }

  lemma NowGiven(before: Snap, v: nat, after: Snap)
    requires v < |before.reqs| && Owned(before.device, before.reqs)
    requires after.reqs == RemoveAt(before.reqs, v) && after.waiting == before.waiting + [before.reqs[v].rid]
    requires var x := before.reqs[v];
      after.device == before.device.(free := before.device.free + (set s | s in Own(x)),
        pins := before.device.pins - multiset{x.node})
    ensures GivesBack(before, v, after)
  {
    assert ReqOk(before.device, before.reqs[v]);
    OwnIsTail(before.device, before.reqs[v]);
  }

  lemma NowRetracted(before: Snap, v: nat, after: Snap, h: Terms, fails: string -> bool)
    requires v < |before.reqs| && Owned(before.device, before.reqs) && |before.device.layers| == h.layers
    requires after.reqs == RemoveAt(before.reqs, v) && after.waiting == before.waiting + [before.reqs[v].rid]
    requires var x := before.reqs[v];
      after.device == before.device.(free := before.device.free + (set s | s in Own(x)),
        pins := before.device.pins - multiset{x.node})
    requires SavedReq(after.saved, before.reqs[v], before.device.layers)
    requires after.saved == before.saved[before.reqs[v].rid := after.saved[before.reqs[v].rid]]
    requires !SaveRefused(h, before.saved, before.reqs[v].rid, |before.reqs[v].tokens|, fails)
    ensures RetractsTo(before, v, after, h, fails, true)
  {
    hide SaveRefused;
    RetractOwned(before, v, after.saved);
  }

  /** One reserve: nothing happens exactly when its backup is refused. */
  ghost predicate ReleasesOne(d: Device, d': Device, reserves: map<string, Reserve>, reserves': map<string, Reserve>,
                              saved: Backups, saved': Backups, rid: string, preserve: bool, h: Terms,
                              fails: string -> bool, r: Release)
    requires rid in reserves
  {
    && (r == Released <==> !preserve || !SaveRefused(h, saved, rid, |reserves[rid].tokens|, fails))
    && if r != Released then d' == d && reserves' == reserves && saved' == saved
       else
         && d' == d.(pins := d.pins - multiset{reserves[rid].node}) && reserves' == reserves - {rid}
         && if !preserve then saved' == saved
            else rid in saved' && saved' == saved[rid := saved'[rid]] && SavedAs(saved', rid, reserves[rid].tokens, d)
  }

  lemma NothingReleased(d: Device, reserves: map<string, Reserve>, saved: Backups, rid: string, preserve: bool,
                        h: Terms, fails: string -> bool)
    requires rid in reserves && preserve && SaveRefused(h, saved, rid, |reserves[rid].tokens|, fails)
    ensures ReleasesOne(d, d, reserves, reserves, saved, saved, rid, preserve, h, fails, SaveFailed)
  {
  }

  lemma OneReleased(d: Device, reserves: map<string, Reserve>, saved: Backups, saved': Backups, rid: string,
                    preserve: bool, h: Terms, fails: string -> bool)
    requires rid in reserves
    requires preserve ==> !SaveRefused(h, saved, rid, |reserves[rid].tokens|, fails)
    requires preserve ==> rid in saved' && saved' == saved[rid := saved'[rid]] && SavedAs(saved', rid,
      reserves[rid].tokens, d)
    requires !preserve ==> saved' == saved
    ensures ReleasesOne(d, d.(pins := d.pins - multiset{reserves[rid].node}), reserves, reserves - {rid}, saved,
      saved', rid, preserve, h, fails, Released)
  {
  }

  /** The next reserve could not be saved. */
  ghost predicate RefusedAt(h: Terms, reserves0: map<string, Reserve>, saved: Backups, rids: seq<string>, k: nat,
                            preserve: bool, fails: string -> bool) {
    preserve && k < |rids| && rids[k] in reserves0 && SaveRefused(h, saved, rids[k], |reserves0[rids[k]].tokens|, fails)
  }

  lemma OnePaid(h: Terms, d: Device, d': Device, reserves0: map<string, Reserve>, reserves: map<string, Reserve>,
                reserves': map<string, Reserve>, saved0: Backups, saved: Backups, saved': Backups, rids: seq<string>,
                k: nat, preserve: bool, fails: string -> bool, r: Release)
    requires k < |rids| && (forall rid :: rid in rids ==> rid in reserves0) && rids[k] in reserves
      && reserves[rids[k]] == reserves0[rids[k]]
    requires ReleasesOne(d, d', reserves, reserves', saved, saved', rids[k], preserve, h, fails, r)
      && |d.layers| == h.layers
    requires Paid(h, saved0, saved, ReserveSizes(reserves0, rids[..k])) && r != LostPrefix
    ensures Paid(h, saved0, saved', ReserveSizes(reserves0, rids[..if r == Released then k + 1 else k]))
    ensures r != Released ==> RefusedAt(h, reserves0, saved', rids, k, preserve, fails)
  {
    hide OverBudget;
    if r == Released {
      var sizes := ReserveSizes(reserves0, rids[..k]);
      assert ReserveSizes(reserves0, rids[..k + 1]) == sizes + [|reserves0[rids[k]].tokens|];
      if preserve {
        PaidMore(h, saved0, saved, saved', sizes, rids[k], reserves0[rids[k]].tokens);
      } else {
        CostAppend(h, sizes, [|reserves0[rids[k]].tokens|]);
      }
    }
  }

  lemma AfterOne(d0: Device, d: Device, d': Device, reserves0: map<string, Reserve>, reserves: map<string, Reserve>,
                 reserves': map<string, Reserve>, saved0: Backups, saved: Backups, saved': Backups, rids: seq<string>,
                 k: nat, preserve: bool, h: Terms, fails: string -> bool, r: Release)
    requires k < |rids| && NoDup(rids) && (forall rid :: rid in rids ==> rid in reserves0) && rids[k] in reserves
      && reserves[rids[k]] == reserves0[rids[k]]
    requires d.tree == d0.tree && d.layers == d0.layers && d.pins >= multiset{reserves0[rids[k]].node}
    requires ReleasedUpTo(d0, d, reserves0, reserves, saved, rids, k, preserve) && BackupsKept(saved0, saved, rids)
    requires ReleasesOne(d, d', reserves, reserves', saved, saved', rids[k], preserve, h, fails, r)
    ensures ReleasedUpTo(d0, d', reserves0, reserves', saved', rids, if r == Released then k + 1 else k, preserve)
      && BackupsKept(saved0, saved', rids)
  {
    hide ReleasedUpTo, Copies, BackupsKept, ReserveNodes, SaveRefused;
    if r == Released {
      ReleaseNext(d0, d, reserves0, reserves, saved, saved', rids, k, preserve);
      if preserve {
        KeptBySave(saved0, saved, saved', rids, rids[k]);
      }
    }
  }

  lemma ReleaseStarts(d: Device, reserves: map<string, Reserve>, saved: Backups, rids: seq<string>, preserve: bool)
    requires forall rid :: rid in rids ==> rid in reserves
    ensures ReleasedUpTo(d, d, reserves, reserves, saved, rids, 0, preserve) && BackupsKept(saved, saved, rids)
  {
  }

  lemma StillReserved(d0: Device, d: Device, reserves0: map<string, Reserve>, reserves: map<string, Reserve>,
                      saved: Backups, rids: seq<string>, k: nat, preserve: bool)
    requires k < |rids| && NoDup(rids) && (forall rid :: rid in rids ==> rid in reserves0)
      && multiset(ReserveNodes(reserves0, rids)) <= d0.pins
    requires ReleasedUpTo(d0, d, reserves0, reserves, saved, rids, k, preserve)
    ensures rids[k] in reserves && reserves[rids[k]] == reserves0[rids[k]] && reserves[rids[k]].node in d.pins
    ensures d.tree == d0.tree && d.layers == d0.layers && d.pins >= multiset{reserves0[rids[k]].node}
  {
    NextPinned(d0, d, reserves0, rids, k);
    assert rids[k] !in rids[..k];
  }

  lemma KeptBySave(saved0: Backups, saved: Backups, saved': Backups, rids: seq<string>, rid: string)
    requires BackupsKept(saved0, saved, rids) && rid in rids && rid in saved' && saved' == saved[rid := saved'[rid]]
    ensures BackupsKept(saved0, saved', rids)
  {
  }

  lemma NowSaved(d0: Device, d: Device, reserve: Reserve, saved: Backups, rid: string)
    requires d.tree == d0.tree && d.layers == d0.layers && rid in saved && saved[rid].tokens == reserve.tokens
    requires Copies(saved[rid], d.layers, Matched(d.tree, reserve.tokens))
    ensures SavedAs(saved, rid, reserve.tokens, d0)
  {
  }

  /** Reserves first: each is saved before its lock goes. Then, if no backup of a reserve was refused, the batch gives
      way from the end of the plan. */
  ghost predicate MakesRoom(before: Snap, reserves0: map<string, Reserve>, reserves: map<string, Reserve>,
                            line: seq<string>, released: nat, mid: Snap, after: Snap, victims: seq<Req>,
                            order: Places<string>, fits: seq<string> -> bool, h: Terms, fails: string -> bool,
                            r: Outcome) {
    && released <= |line| && (forall rid :: rid in line ==> rid in reserves0)
    && ReleasedUpTo(before.device, mid.device, reserves0, reserves, mid.saved, line, released, true)
    && Paid(h, before.saved, mid.saved, ReserveSizes(reserves0, line[..released]))
    && mid.reqs == before.reqs && mid.waiting == before.waiting
    && if released < |line| then
         after == mid && r == SaveError && RefusedAt(h, reserves0, mid.saved, line, released, true, fails)
       else RetractsUntil(mid, after, victims, order, fits, h, fails, r)
  }

  // ---- The loop's invariant --------------------------------------------------------------------------------

  ghost predicate Pressed(s0: Snap, s: Snap, victims: seq<Req>, order: Places<string>, fits: seq<string> -> bool,
                          h: Terms) {
    && Owned(s.device, s.reqs) && Retracted(s0, s, victims, order, fits) && Paid(h, s0.saved, s.saved, Sizes(victims))
    && forall v, q :: v in victims && q in s.reqs ==> v.rid != q.rid
  }

  /** The last of the plan has to go, and its backup is refused. */
  ghost predicate VictimRefused(s: Snap, order: Places<string>, h: Terms, fails: string -> bool) {
    exists v :: 0 <= v < |s.reqs| && LastIn(order, s.reqs, v) && SaveRefused(h, s.saved, s.reqs[v].rid,
      |s.reqs[v].tokens|, fails)
  }

  /** How the loop ends. */
  ghost predicate RetractsUntil(s0: Snap, s: Snap, victims: seq<Req>, order: Places<string>, fits: seq<string> -> bool,
                                h: Terms, fails: string -> bool, r: Outcome) {
    && Owned(s.device, s.reqs) && Retracted(s0, s, victims, order, fits) && Paid(h, s0.saved, s.saved, Sizes(victims))
    && (r == EnoughRoom ==> fits(Rids(s.reqs)))
    && (r == SingleRequest ==> |s.reqs| <= 1 && !fits(Rids(s.reqs)))
    && (r == SaveError ==> |s.reqs| > 1 && !fits(Rids(s.reqs)) && VictimRefused(s, order, h, fails))
  }

  /** No copy raises, and the host has room for backups of all reserves and of the whole batch. */
  ghost predicate Affordable(h: Terms, saved: Backups, reserves: map<string, Reserve>, line: seq<string>,
                             reqs: seq<Req>, fails: string -> bool) {
    && (forall rid :: rid in line ==> rid in reserves && !fails(rid)) && (forall q :: q in reqs ==> !fails(q.rid))
    && TotalBytes(saved, h.rowBytes) + CostOf(h, ReserveSizes(reserves, line)) + CostOf(h, Sizes(reqs)) <= h.limit
  }

  /** If no backup can be refused, pressure ends with enough room or with a single request that does not fit. */
  lemma NoErrorExpected(before: Snap, reserves0: map<string, Reserve>, reserves: map<string, Reserve>,
                        line: seq<string>, released: nat, mid: Snap, after: Snap, victims: seq<Req>,
                        order: Places<string>, fits: seq<string> -> bool, h: Terms, fails: string -> bool, r: Outcome)
    requires MakesRoom(before, reserves0, reserves, line, released, mid, after, victims, order, fits, h, fails, r)
    ensures Affordable(h, before.saved, reserves0, line, before.reqs, fails) ==> r == EnoughRoom || r == SingleRequest
  {
    hide Owned, Retracted, ReleasedUpTo, OverBudget, LastIn, ReserveSizes;
    if Affordable(h, before.saved, reserves0, line, before.reqs, fails) && r == SaveError {
      if released < |line| {
        assert line[released] in line;
        ReserveAffordable(h, before.saved, mid.saved, reserves0, line, released);
      } else {
        var v :| 0 <= v < |after.reqs| && LastIn(order, after.reqs, v)
          && SaveRefused(h, after.saved, after.reqs[v].rid, |after.reqs[v].tokens|, fails);
        TakeAll(line);
        assert after.reqs[v] in after.reqs;
        VictimsDrawn(mid, after, victims, order, fits, v);
        VictimAffordable(h, before.saved, mid.saved, after.saved, ReserveSizes(reserves0, line), before.reqs, victims,
          after.reqs[v]);
      }
    }
  }

  lemma ReserveAffordable(h: Terms, saved0: Backups, saved: Backups, reserves0: map<string, Reserve>, line: seq<string>,
                          k: nat)
    requires k < |line| && (forall rid :: rid in line ==> rid in reserves0)
      && Paid(h, saved0, saved, ReserveSizes(reserves0, line[..k]))
    requires TotalBytes(saved0, h.rowBytes) + CostOf(h, ReserveSizes(reserves0, line)) <= h.limit
    ensures !OverBudget(h, saved, line[k], |reserves0[line[k]].tokens|)
  {
    var sizes, all := ReserveSizes(reserves0, line[..k]), ReserveSizes(reserves0, line);
    TotalShrinks(saved, h.rowBytes, line[k]);
    assert all == sizes + [all[k]] + all[k + 1..];
    CostAppend(h, sizes + [all[k]], all[k + 1..]);
    assert (sizes + [all[k]])[..k] == sizes;
  }

  lemma VictimsDrawn(s0: Snap, s: Snap, victims: seq<Req>, order: Places<string>, fits: seq<string> -> bool, v: nat)
    requires Retracted(s0, s, victims, order, fits) && v < |s.reqs|
    ensures NoDup(victims + [s.reqs[v]]) && forall r :: r in victims + [s.reqs[v]] ==> r in s0.reqs
  {
    hide Filter, AllSaved, AllAhead, NoEarlier, OthersSaved, OwnSlots, Nodes, Rids, Ahead;
    FilterMembers(s0.reqs, Survives(victims));
    assert s.reqs[v] in s.reqs;
  }

  lemma VictimAffordable(h: Terms, saved0: Backups, mid: Backups, saved: Backups, sizes: seq<nat>, reqs: seq<Req>,
                         victims: seq<Req>, x: Req)
    requires Paid(h, saved0, mid, sizes) && Paid(h, mid, saved, Sizes(victims))
    requires NoDup(victims + [x]) && forall r :: r in victims + [x] ==> r in reqs
    requires TotalBytes(saved0, h.rowBytes) + CostOf(h, sizes) + CostOf(h, Sizes(reqs)) <= h.limit
    ensures !OverBudget(h, saved, x.rid, |x.tokens|)
  {
    TotalShrinks(saved, h.rowBytes, x.rid);
    CostDrawn(h, victims + [x], reqs);
    assert Sizes(victims + [x])[..|victims|] == Sizes(victims);
  }

  /** Releasing reserves changes locks only, so the terms stay. */
  lemma SameTerms(d0: Device, d: Device, reserves0: map<string, Reserve>, reserves: map<string, Reserve>,
                  saved: Backups, line: seq<string>, rowBytes: nat, limit: nat)
    requires (forall rid :: rid in line ==> rid in reserves0)
      && ReleasedUpTo(d0, d, reserves0, reserves, saved, line, |line|, true)
    ensures |d.layers| == |d0.layers|
  {
  }

  lemma PressureStarts(s: Snap, order: Places<string>, fits: seq<string> -> bool, h: Terms)
    requires Owned(s.device, s.reqs)
    ensures Pressed(s, s, [], order, fits, h)
  {
    hide Owned, Filter, Own, OwnSlots, Rids, Nodes, SavedReq, Ahead;
    FilterAll(s.reqs, Survives([]));
    NoVictims(s);
  }

  lemma NoVictims(s: Snap)
    ensures s.waiting + Rids([]) == s.waiting
    ensures s.device == s.device.(free := s.device.free + OwnSlots([]), pins := s.device.pins)
    ensures s.device.pins + multiset(Nodes([])) == s.device.pins
  {
    assert OwnSlots([]) == {};
    assert Nodes([]) == [];
  }

  lemma RoomReleased(before: Snap, reserves0: map<string, Reserve>, reserves: map<string, Reserve>, line: seq<string>,
                     released: nat, mid: Snap, order: Places<string>, fits: seq<string> -> bool, h: Terms,
                     fails: string -> bool)
    requires released < |line| && (forall rid :: rid in line ==> rid in reserves0) && mid.reqs == before.reqs
      && mid.waiting == before.waiting
    requires ReleasedUpTo(before.device, mid.device, reserves0, reserves, mid.saved, line, released, true)
    requires Paid(h, before.saved, mid.saved, ReserveSizes(reserves0, line[..released]))
    requires RefusedAt(h, reserves0, mid.saved, line, released, true, fails)
    ensures MakesRoom(before, reserves0, reserves, line, released, mid, mid, [], order, fits, h, fails, SaveError)
  {
    hide ReleasedUpTo, Paid, RefusedAt;
  }

  lemma RoomMadeBy(before: Snap, reserves0: map<string, Reserve>, reserves: map<string, Reserve>, line: seq<string>,
                   mid: Snap, after: Snap, victims: seq<Req>, order: Places<string>, fits: seq<string> -> bool,
                   h: Terms, fails: string -> bool, r: Outcome)
    requires (forall rid :: rid in line ==> rid in reserves0) && mid.reqs == before.reqs
      && mid.waiting == before.waiting
    requires ReleasedUpTo(before.device, mid.device, reserves0, reserves, mid.saved, line, |line|, true)
    requires Paid(h, before.saved, mid.saved, ReserveSizes(reserves0, line[..|line|]))
    requires RetractsUntil(mid, after, victims, order, fits, h, fails, r)
    ensures MakesRoom(before, reserves0, reserves, line, |line|, mid, after, victims, order, fits, h, fails, r)
  {
    hide ReleasedUpTo, Paid, RetractsUntil;
  }

  lemma PressedParts(s0: Snap, s: Snap, victims: seq<Req>, order: Places<string>, fits: seq<string> -> bool, h: Terms)
    requires Pressed(s0, s, victims, order, fits, h)
    ensures Owned(s.device, s.reqs) && NoDup(Rids(s.reqs))
  {
    hide Retracted, Paid;
    OwnedOnce(s.device, s.reqs);
  }

  lemma UntilAlone(s0: Snap, s: Snap, victims: seq<Req>, order: Places<string>, fits: seq<string> -> bool, h: Terms,
                   fails: string -> bool)
    requires Pressed(s0, s, victims, order, fits, h) && |s.reqs| <= 1 && !fits(Rids(s.reqs))
    ensures RetractsUntil(s0, s, victims, order, fits, h, fails, SingleRequest)
  {
    hide Retracted, Owned, Paid;
  }

  lemma UntilFailed(s0: Snap, s: Snap, victims: seq<Req>, order: Places<string>, fits: seq<string> -> bool, h: Terms,
                    fails: string -> bool, v: nat)
    requires Pressed(s0, s, victims, order, fits, h) && |s.reqs| > 1 && !fits(Rids(s.reqs))
    requires v < |s.reqs| && LastIn(order, s.reqs, v)
      && SaveRefused(h, s.saved, s.reqs[v].rid, |s.reqs[v].tokens|, fails)
    ensures RetractsUntil(s0, s, victims, order, fits, h, fails, SaveError)
  {
    hide Retracted, Owned, Paid, LastIn, SaveRefused;
  }

  lemma UntilFits(s0: Snap, s: Snap, victims: seq<Req>, order: Places<string>, fits: seq<string> -> bool, h: Terms,
                  fails: string -> bool)
    requires Pressed(s0, s, victims, order, fits, h) && fits(Rids(s.reqs))
    ensures RetractsUntil(s0, s, victims, order, fits, h, fails, EnoughRoom)
  {
    hide Retracted, Owned, Paid;
  }

  lemma Continues(s0: Snap, s: Snap, victims: seq<Req>, order: Places<string>, fits: seq<string> -> bool, h: Terms,
                  fails: string -> bool, v: nat, t: Snap, ok: bool)
    requires Pressed(s0, s, victims, order, fits, h) && v < |s.reqs| && !fits(Rids(s.reqs)) && LastIn(order, s.reqs, v)
    requires RetractsTo(s, v, t, h, fails, ok)
    ensures !ok ==> t == s && SaveRefused(h, s.saved, s.reqs[v].rid, |s.reqs[v].tokens|, fails)
    ensures ok ==>
      Pressed(s0, t, victims + [s.reqs[v]], order, fits, h) && |t.reqs| < |s.reqs| && t.reqs == RemoveAt(s.reqs, v)
    ensures |t.device.layers| == |s.device.layers|
  {
    hide Owned, Retracted, Own, SavedReq, RemoveAt, LastIn, Rids, SaveRefused, Paid;
    if ok {
      assert s.reqs[v] in s.reqs;
      RetractedNext(s0, s, victims, order, fits, v, t.saved);
      OwnedOnce(s.device, s.reqs);
      RemainingDiffer(s.reqs, v);
      ShorterBy(s.reqs, v);
      VictimPaid(h, s0.saved, s.saved, t.saved, victims, s.reqs[v], s.device.layers);
    }
  }

  lemma VictimPaid(h: Terms, saved0: Backups, saved: Backups, saved': Backups, victims: seq<Req>, x: Req,
                   layers: seq<map<Slot, int>>)
    requires Paid(h, saved0, saved, Sizes(victims)) && SavedReq(saved', x, layers)
      && saved' == saved[x.rid := saved'[x.rid]] && |layers| == h.layers
    ensures Paid(h, saved0, saved', Sizes(victims + [x]))
  {
    assert Sizes(victims + [x]) == Sizes(victims) + [|x.tokens|];
    PaidMore(h, saved0, saved, saved', Sizes(victims), x.rid, x.tokens);
  }

  lemma ShorterBy<T>(s: seq<T>, v: nat)
    requires v < |s|
    ensures |RemoveAt(s, v)| == |s| - 1
  {
  }

  lemma RemainingDiffer(reqs: seq<Req>, v: nat)
    requires v < |reqs| && NoDup(Rids(reqs))
    ensures forall q :: q in RemoveAt(reqs, v) ==> q in reqs && q.rid != reqs[v].rid
  {
    forall q | q in RemoveAt(reqs, v) ensures q in reqs && q.rid != reqs[v].rid {
      var i :| 0 <= i < |reqs| && i != v && reqs[i] == q;
      assert Rids(reqs)[i] != Rids(reqs)[v];
    }
  }

  lemma ServesAll(c: seq<string>, reqs: seq<Req>)
    requires forall q :: q in reqs ==> q.rid in c
    ensures Serves(c, c, reqs, [])
  {
  }

  lemma RankedByCohort(c0: seq<string>, c: seq<string>, reqs: seq<Req>, victims: seq<Req>)
    requires Serves(c0, c, reqs, victims) && NoDup(Rids(reqs))
    ensures Ranked(OrderOf(c), reqs) && forall q :: q in reqs ==> q.rid in c
  {
    OrderRanks(c, reqs);
  }

  lemma LastByCohort(c0: seq<string>, c: seq<string>, reqs: seq<Req>, victims: seq<Req>, v: nat)
    requires NoDup(c0) && Serves(c0, c, reqs, victims) && v < |reqs| && LastIn(OrderOf(c), reqs, v)
    ensures LastIn(OrderOf(c0), reqs, v) && reqs[v].rid in c
    ensures Serves(c0, c[..IndexOf(c, reqs[v].rid)], RemoveAt(reqs, v), victims + [reqs[v]])
  {
    SameLast(c0, c, reqs, v);
    ServesNext(c0, c, reqs, victims, v);
  }

  lemma RankedStill(order: Places<string>, reqs: seq<Req>, v: nat)
    requires Ranked(order, reqs) && v < |reqs|
    ensures Ranked(order, RemoveAt(reqs, v))
  {
  }

  lemma RetainedCohort(l: Limits, w: Window, x: string)
    requires x in w.cohort
    ensures Retained(l, w, IndexOf(w.cohort, x)).cohort == w.cohort[..IndexOf(w.cohort, x)]
  {
  }

  lemma CohortOnce(l: Limits, w: Window)
    requires WindowOk(l, w)
    ensures NoDup(w.cohort)
  {
  }

  /** The batch still owns what it owned. */
  lemma AfterRelease(d0: Device, mid: Snap, reserves0: map<string, Reserve>, reserves: map<string, Reserve>,
                     line: seq<string>)
    requires Owned(d0, mid.reqs) && DeviceOk(mid.device) && ReservesOk(d0, reserves0, line)
    requires multiset(Nodes(mid.reqs)) + multiset(ReserveNodes(reserves0, line)) <= d0.pins
    requires ReleasedUpTo(d0, mid.device, reserves0, reserves, mid.saved, line, |line|, true)
    ensures Owned(mid.device, mid.reqs)
  {
    hide ReqOk, Apart, DeviceOk, Nodes, ReserveNodes, SavedAs;
    TakeAll(line);
    forall i | 0 <= i < |mid.reqs| ensures ReqOk(mid.device, mid.reqs[i]) {
      assert ReqOk(d0, mid.reqs[i]);
      SameReqOk(d0, mid.device, mid.reqs[i]);
    }
    assert mid.device.pins + multiset(ReserveNodes(reserves0, line)) == d0.pins;
  }

  lemma SameReqOk(d: Device, d': Device, r: Req)
    requires ReqOk(d, r) && d' == d.(pins := d'.pins)
    ensures ReqOk(d', r)
  {
  }

  // ---- As few retractions as possible ---------------------------------------------------------------------

  /** `keep` selects a prefix of the plan's order. */
  ghost predicate PlanPrefix(order: Places<string>, reqs: seq<Req>, keep: Req -> bool) {
    forall a, b :: a in reqs && b in reqs && Ahead(order, a, b) && keep(b) ==> keep(a)
  }

  /** The survivors are a prefix of the plan's order, and no longer prefix fits. */
  lemma LongestFittingPrefix(s0: Snap, s: Snap, victims: seq<Req>, order: Places<string>, fits: seq<string> -> bool,
                             keep: Req -> bool)
    requires Retracted(s0, s, victims, order, fits) && PlanPrefix(order, s0.reqs, keep)
    requires exists v :: v in victims && keep(v)
    ensures !fits(Rids(Filter(s0.reqs, keep)))
    ensures forall r, v :: r in s.reqs && v in victims ==> Ahead(order, r, v)
  {
    hide Filter;
    var v :| v in victims && keep(v);
    var k :| 0 <= k < |victims| && victims[k] == v;
    var i := FirstKept(victims, keep, k);
    FilterMembers(s0.reqs, Survives(victims));
    forall r | r in s0.reqs ensures keep(r) <==> Survives(victims[..i])(r) {
      StageMember(s0.reqs, s.reqs, victims, order, keep, i, r);
    }
    FilterSame(s0.reqs, keep, Survives(victims[..i]));
  }

  /** The first victim that `keep` would have kept. */
  ghost function FirstKept(victims: seq<Req>, keep: Req -> bool, k: nat): (i: nat)
    requires k < |victims| && keep(victims[k])
    ensures i <= k && keep(victims[i]) && forall j :: 0 <= j < i ==> !keep(victims[j])
  {
    if j :| 0 <= j < k && keep(victims[j]) then FirstKept(victims, keep, j) else k
  }

  lemma StageMember(reqs0: seq<Req>, reqs: seq<Req>, victims: seq<Req>, order: Places<string>, keep: Req -> bool,
                    i: nat, r: Req)
    requires i < |victims| && keep(victims[i]) && (forall j :: 0 <= j < i ==> !keep(victims[j])) && r in reqs0
    requires (forall v :: v in victims ==> v in reqs0) && (r in reqs <==> r !in victims)
    requires AllAhead(order, reqs, victims) && Descending(order, victims) && PlanPrefix(order, reqs0, keep)
    ensures keep(r) <==> r !in victims[..i]
  {
    assert victims[i] in reqs0;
    if r in victims {
      var j :| 0 <= j < |victims| && victims[j] == r;
      if j < i {
        assert victims[..i][j] == r;
      } else {
        assert forall m :: 0 <= m < i ==> victims[m] != victims[j];
      }
    } else {
      assert Ahead(order, r, victims[i]);
    }
  }
}
