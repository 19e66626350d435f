/** The serving engine's KV memory as the swap code relies on it: a token pool, its free slots, and the radix cache. */
module DeviceKVs {
  import opened Sequences

  type Slot = nat
  type Path = seq<int>

  /** `tree` maps every cached token path to the slot of its last token; `pins` are the locked paths;
      `layers` holds one value per slot and layer. */
  datatype Device = Device(tree: map<Path, Slot>, pins: multiset<Path>, free: set<Slot>, layers: seq<map<Slot, int>>)

  function Parent(p: Path): Path
    requires p != []
  {
    p[..|p| - 1]
  }

  /** A lock protects its path and every prefix of it. */
  predicate Protected(pins: multiset<Path>, p: Path) { exists q :: q in pins && p <= q }

  function Cached(tree: map<Path, Slot>): (r: set<Slot>)
    ensures forall s :: s in r <==> exists p :: p in tree && tree[p] == s
  {
    set p | p in tree :: tree[p]
  }

  ghost predicate PrefixClosed(tree: map<Path, Slot>) {
    forall p :: p in tree ==> p != [] && (|p| > 1 ==> Parent(p) in tree)
  }

  ghost predicate Injective(tree: map<Path, Slot>) {
    forall p, q :: p in tree && q in tree && tree[p] == tree[q] ==> p == q
  }

  /** Cached and free slots are disjoint, no slot is cached twice, and locked paths are cached. */
  ghost predicate DeviceOk(d: Device) {
    && PrefixClosed(d.tree) && Injective(d.tree) && Cached(d.tree) !! d.free
    && (forall p :: p in d.pins ==> p == [] || p in d.tree)
    && (forall l :: 0 <= l < |d.layers| ==> forall s :: s in d.free || s in Cached(d.tree) ==> s in d.layers[l])
  }

  /** What a slot holds, layer by layer. */
  function Row(layers: seq<map<Slot, int>>, s: Slot): seq<int>
    requires forall l :: 0 <= l < |layers| ==> s in layers[l]
  {
    seq(|layers|, l requires 0 <= l < |layers| => layers[l][s])
  }

  // ---- Matching ----------------------------------------------------------------------------

  /** How many leading tokens are cached, counted from `n`. */
  function MatchFrom(tree: map<Path, Slot>, tokens: Path, n: nat): (m: nat)
    requires n <= |tokens|
    ensures n <= m <= |tokens|
    decreases |tokens| - n
  {
    if n < |tokens| && tokens[..n + 1] in tree then MatchFrom(tree, tokens, n + 1) else n
  }

  function MatchLen(tree: map<Path, Slot>, tokens: Path): (m: nat)
    ensures m <= |tokens|
  {
    MatchFrom(tree, tokens, 0)
  }

  lemma {:induction false} MatchedFrom(tree: map<Path, Slot>, tokens: Path, n: nat)
    requires n <= |tokens|
    ensures forall k :: n < k <= MatchFrom(tree, tokens, n) ==> tokens[..k] in tree
    ensures MatchFrom(tree, tokens, n) < |tokens| ==> tokens[..MatchFrom(tree, tokens, n) + 1] !in tree
    decreases |tokens| - n
  {
    if n < |tokens| && tokens[..n + 1] in tree {
      MatchedFrom(tree, tokens, n + 1);
    }
  }

  lemma {:induction false} ClosedUpTo(tree: map<Path, Slot>, tokens: Path, n: nat, k: nat)
    requires PrefixClosed(tree) && 0 < k <= n <= |tokens| && tokens[..n] in tree
    ensures tokens[..k] in tree
    decreases n - k
  {
    if k < n {
      assert Parent(tokens[..n]) == tokens[..n - 1];
      ClosedUpTo(tree, tokens, n - 1, k);
    }
  }

  /** The match is the longest cached prefix: exactly the prefixes up to it are cached. */
  lemma MatchIsLongest(tree: map<Path, Slot>, tokens: Path)
    requires PrefixClosed(tree)
    ensures forall n :: 1 <= n <= |tokens| ==> (tokens[..n] in tree <==> n <= MatchLen(tree, tokens))
  {
    MatchedFrom(tree, tokens, 0);
    forall n | 1 <= n <= |tokens| ensures tokens[..n] in tree <==> n <= MatchLen(tree, tokens) {
      if n > MatchLen(tree, tokens) && tokens[..n] in tree {
        ClosedUpTo(tree, tokens, n, MatchLen(tree, tokens) + 1);
      }
    }
  }

  /** The slots of the matched prefix. */
  function Matched(tree: map<Path, Slot>, tokens: Path): (r: seq<Slot>)
    ensures |r| == MatchLen(tree, tokens)
    ensures forall n :: 1 <= n <= |r| ==> tokens[..n] in tree && r[n - 1] == tree[tokens[..n]]
  {
    MatchedFrom(tree, tokens, 0);
    seq(MatchLen(tree, tokens), i requires 0 <= i < MatchLen(tree, tokens) => tree[tokens[..i + 1]])
  }

  ghost predicate PathSlots(tree: map<Path, Slot>, tokens: Path, indices: seq<Slot>) {
    |indices| <= |tokens| && forall n :: 1 <= n <= |indices| ==>
      tokens[..n] in tree && indices[n - 1] == tree[tokens[..n]]
  }

  lemma PathSlotsMore(tree: map<Path, Slot>, tokens: Path, indices: seq<Slot>)
    requires PathSlots(tree, tokens, indices) && |indices| < |tokens| && tokens[..|indices| + 1] in tree
    ensures PathSlots(tree, tokens, indices + [tree[tokens[..|indices| + 1]]])
    ensures MatchFrom(tree, tokens, |indices| + 1) == MatchFrom(tree, tokens, |indices|)
  {
  }

  lemma MatchStarts(tree: map<Path, Slot>, tokens: Path)
    ensures PathSlots(tree, tokens, []) && MatchFrom(tree, tokens, 0) == MatchLen(tree, tokens)
  {
  }

  lemma MatchedIs(tree: map<Path, Slot>, tokens: Path, indices: seq<Slot>)
    requires |indices| == MatchLen(tree, tokens) && PathSlots(tree, tokens, indices)
    ensures indices == Matched(tree, tokens)
  {
    forall i | 0 <= i < |indices| ensures indices[i] == Matched(tree, tokens)[i] {
      assert tokens[..i + 1] in tree;
    }
  }

  lemma LongestMatch(d: Device, tokens: Path)
    requires DeviceOk(d)
    ensures forall n :: 1 <= n <= |tokens| ==> (tokens[..n] in d.tree <==> n <= MatchLen(d.tree, tokens))
  {
    MatchIsLongest(d.tree, tokens);
  }

  // ---- Inserting -----------------------------------------------------------------------------

  /** The paths that `insert` adds: the prefixes of `tokens` that are not cached. */
  function Inserted(tree: map<Path, Slot>, tokens: Path, slots: seq<Slot>, shared: nat): map<Path, Slot>
    requires |slots| == |tokens| && shared <= |tokens|
  {
    map p | p in tree.Keys + Prefixes(tokens, shared) :: if p in tree then tree[p] else slots[|p| - 1]
  }

  function Prefixes(tokens: Path, shared: nat): (r: set<Path>)
    requires shared <= |tokens|
    ensures forall p :: p in r ==> shared < |p| <= |tokens| && p == tokens[..|p|]
    ensures forall n :: shared < n <= |tokens| ==> tokens[..n] in r
  {
    set n | shared < n <= |tokens| :: tokens[..n]
  }

  ghost predicate Distinct(slots: seq<Slot>, d: Device) {
    NoDup(slots) && forall s :: s in slots ==> s !in d.free && s !in Cached(d.tree) && forall l ::
      0 <= l < |d.layers| ==> s in d.layers[l]
  }

  lemma InsertKeeps(d: Device, tokens: Path, slots: seq<Slot>)
    requires DeviceOk(d) && |slots| == |tokens|
    requires Distinct(slots[MatchLen(d.tree, tokens)..], d)
    ensures var shared := MatchLen(d.tree, tokens); var tree' := Inserted(d.tree, tokens, slots, shared);
      && DeviceOk(d.(tree := tree'))
      && (forall p :: p in d.tree ==> p in tree' && tree'[p] == d.tree[p])
      && (forall n :: shared < n <= |tokens| ==> tokens[..n] in tree' && tree'[tokens[..n]] == slots[n - 1])
      && (forall s :: s in Cached(tree') <==> s in Cached(d.tree) || s in slots[shared..])
  {
    InsertClosed(d.tree, tokens, slots);
    InsertInjective(d, tokens, slots);
    InsertCached(d, tokens, slots);
    InsertPaths(d.tree, tokens, slots);
    hide MatchLen, Inserted, Cached, Prefixes, PrefixClosed, Injective;
  }

  /** What `insert` stores for each path. */
  lemma InsertedAt(tree: map<Path, Slot>, tokens: Path, slots: seq<Slot>, shared: nat, p: Path)
    requires |slots| == |tokens| && shared <= |tokens|
    ensures var tree' := Inserted(tree, tokens, slots, shared);
      && (p in tree ==> p in tree' && tree'[p] == tree[p])
      && (p in tree' && p !in tree ==>
         shared < |p| <= |tokens| && p == tokens[..|p|] && tree'[p] == slots[shared..][|p| - 1 - shared])
  {
  }

  lemma InsertedNew(tree: map<Path, Slot>, tokens: Path, slots: seq<Slot>, n: nat)
    requires PrefixClosed(tree) && |slots| == |tokens| && MatchLen(tree, tokens) < n <= |tokens|
    ensures var tree' := Inserted(tree, tokens, slots, MatchLen(tree, tokens));
      tokens[..n] in tree' && tree'[tokens[..n]] == slots[n - 1]
  {
    hide MatchLen;
    LongestAt(tree, tokens, n);
  }

  lemma LongestAt(tree: map<Path, Slot>, tokens: Path, n: nat)
    requires PrefixClosed(tree) && 1 <= n <= |tokens|
    ensures tokens[..n] in tree <==> n <= MatchLen(tree, tokens)
  {
    MatchIsLongest(tree, tokens);
  }

  lemma InsertPaths(tree: map<Path, Slot>, tokens: Path, slots: seq<Slot>)
    requires PrefixClosed(tree) && |slots| == |tokens|
    ensures var shared := MatchLen(tree, tokens); var tree' := Inserted(tree, tokens, slots, shared);
      && (forall p :: p in tree ==> p in tree' && tree'[p] == tree[p])
      && (forall n :: shared < n <= |tokens| ==> tokens[..n] in tree' && tree'[tokens[..n]] == slots[n - 1])
  {
    hide MatchLen, PrefixClosed, Prefixes;
    var shared := MatchLen(tree, tokens);
    var tree' := Inserted(tree, tokens, slots, shared);
    forall n | shared < n <= |tokens| ensures tokens[..n] in tree' && tree'[tokens[..n]] == slots[n - 1] {
      InsertedNew(tree, tokens, slots, n);
    }
  }

  lemma InsertCached(d: Device, tokens: Path, slots: seq<Slot>)
    requires PrefixClosed(d.tree) && |slots| == |tokens|
    ensures var shared := MatchLen(d.tree, tokens);
      forall s :: s in Cached(Inserted(d.tree, tokens, slots, shared)) <==> s in Cached(d.tree) || s in slots[shared..]
  {
    var shared := MatchLen(d.tree, tokens);
    var tree' := Inserted(d.tree, tokens, slots, shared);
    hide MatchLen, Inserted, PrefixClosed;
    forall s | s in slots[shared..] ensures s in Cached(tree') {
      InsertedSlot(d.tree, tokens, slots, s);
    }
    forall s | s in Cached(d.tree) ensures s in Cached(tree') {
      var p :| p in d.tree && d.tree[p] == s;
      InsertedAt(d.tree, tokens, slots, shared, p);
    }
    forall s | s in Cached(tree') && s !in Cached(d.tree) ensures s in slots[shared..] {
      var p :| p in tree' && tree'[p] == s;
      InsertedAt(d.tree, tokens, slots, shared, p);
    }
  }

  lemma InsertedSlot(tree: map<Path, Slot>, tokens: Path, slots: seq<Slot>, s: Slot)
    requires PrefixClosed(tree) && |slots| == |tokens| && s in slots[MatchLen(tree, tokens)..]
    ensures s in Cached(Inserted(tree, tokens, slots, MatchLen(tree, tokens)))
  {
    hide MatchLen, Inserted, PrefixClosed;
    var shared := MatchLen(tree, tokens);
    var i :| 0 <= i < |slots[shared..]| && slots[shared..][i] == s;
    InsertedNew(tree, tokens, slots, shared + i + 1);
  }

  lemma InsertClosed(tree: map<Path, Slot>, tokens: Path, slots: seq<Slot>)
    requires PrefixClosed(tree) && |slots| == |tokens|
    ensures PrefixClosed(Inserted(tree, tokens, slots, MatchLen(tree, tokens)))
  {
    var shared := MatchLen(tree, tokens);
    var tree' := Inserted(tree, tokens, slots, shared);
    MatchIsLongest(tree, tokens);
    forall p | p in tree' && |p| > 1 ensures Parent(p) in tree' {
      if p !in tree {
        assert Parent(p) == tokens[..|p| - 1];
      }
    }
  }

  lemma InsertInjective(d: Device, tokens: Path, slots: seq<Slot>)
    requires DeviceOk(d) && |slots| == |tokens| && Distinct(slots[MatchLen(d.tree, tokens)..], d)
    ensures Injective(Inserted(d.tree, tokens, slots, MatchLen(d.tree, tokens)))
  {
    hide Inserted, MatchLen, PrefixClosed, Cached;
    var shared := MatchLen(d.tree, tokens);
    var added := slots[shared..];
    var tree' := Inserted(d.tree, tokens, slots, shared);
    forall p, q | p in tree' && q in tree' && tree'[p] == tree'[q] ensures p == q {
      InsertedAt(d.tree, tokens, slots, shared, p);
      InsertedAt(d.tree, tokens, slots, shared, q);
      assert p !in d.tree ==> tree'[p] in added;
      assert q !in d.tree ==> tree'[q] in added;
    }
  }

  // ---- Evicting --------------------------------------------------------------------------------

  /** What `evict(n)` may do: unlocked paths leave, their slots become free, and it gives up early only when all that is
      left is locked. */
  ghost predicate EvictsTo(d: Device, n: nat, d': Device) {
    && d'.pins == d.pins && d'.layers == d.layers
    && (forall p :: p in d'.tree ==> p in d.tree && d'.tree[p] == d.tree[p])
    && (forall p :: p in d.tree && Protected(d.pins, p) ==> p in d'.tree)
    && d'.free + Cached(d'.tree) == d.free + Cached(d.tree) && d.free <= d'.free
    && (|d'.free| >= |d.free| + n || forall p :: p in d'.tree ==> Protected(d.pins, p))
  }

  function Unlocked(d: Device): set<Path> { set p | p in d.tree && !Protected(d.pins, p) }

  lemma {:induction false} LongestExists(s: set<Path>)
    requires s != {}
    ensures exists p :: p in s && forall q :: q in s ==> |q| <= |p|
  {
    var p :| p in s;
    var rest := s - {p};
    assert forall q :: q in s ==> q == p || q in rest;
    if rest != {} {
      LongestExists(rest);
      var r :| r in rest && forall q :: q in rest ==> |q| <= |r|;
      var longer := if |r| < |p| then p else r;
      assert longer in s && forall q :: q in s ==> |q| <= |longer|;
    }
  }

  function Dropped(d: Device, p: Path): Device
    requires p in d.tree
  {
    d.(tree := d.tree - {p}, free := d.free + {d.tree[p]})
  }

  /** A longest unlocked path is a leaf, and can go. */
  lemma DropKeeps(d: Device, p: Path)
    requires DeviceOk(d) && p in Unlocked(d) && forall q :: q in Unlocked(d) ==> |q| <= |p|
    ensures DeviceOk(Dropped(d, p)) && EvictsTo(d, 0, Dropped(d, p))
    ensures |Dropped(d, p).free| == |d.free| + 1
  {
    hide Protected, PrefixClosed, EvictsTo;
    DropClosed(d, p);
    DropEvicts(d, p);
    CachedDropped(d, p);
    NotPinned(d, p);
    assert d.tree[p] in Cached(d.tree);
    hide Cached, Unlocked;
    DroppedLayers(d, p);
  }

  lemma NotPinned(d: Device, p: Path)
    requires p in Unlocked(d)
    ensures p !in d.pins
  {
    assert p <= p && (p in d.pins ==> Protected(d.pins, p));
  }

  lemma DroppedLayers(d: Device, p: Path)
    requires DeviceOk(d) && p in d.tree && d.tree[p] in Cached(d.tree)
      && Cached(d.tree - {p}) == Cached(d.tree) - {d.tree[p]}
    ensures var d' := Dropped(d, p);
      forall l :: 0 <= l < |d'.layers| ==> forall s :: s in d'.free || s in Cached(d'.tree) ==> s in d'.layers[l]
  {
    hide Cached, PrefixClosed, Injective;
  }

  lemma DropEvicts(d: Device, p: Path)
    requires Injective(d.tree) && p in Unlocked(d)
    ensures EvictsTo(d, 0, Dropped(d, p))
  {
    CachedDropped(d, p);
    assert d.tree[p] in Cached(d.tree);
    SubsetCard(d.free, Dropped(d, p).free);
    hide Protected, Cached;
  }

  lemma ProtectedAbove(pins: multiset<Path>, p: Path, q: Path)
    requires Protected(pins, q) && p <= q
    ensures Protected(pins, p)
  {
    var r :| r in pins && q <= r;
    assert p <= r;
  }

  lemma DropClosed(d: Device, p: Path)
    requires PrefixClosed(d.tree) && p in Unlocked(d) && forall q :: q in Unlocked(d) ==> |q| <= |p|
    ensures PrefixClosed(d.tree - {p})
  {
    forall q | q in d.tree - {p} && |q| > 1 ensures Parent(q) != p {
      if Protected(d.pins, q) {
        ProtectedAbove(d.pins, Parent(q), q);
      } else {
        assert q in Unlocked(d);
      }
    }
  }

  lemma CachedDropped(d: Device, p: Path)
    requires Injective(d.tree) && p in d.tree
    ensures Cached(d.tree - {p}) == Cached(d.tree) - {d.tree[p]}
  {
    forall s | s in Cached(d.tree) && s != d.tree[p] ensures s in Cached(d.tree - {p}) {
      var q :| q in d.tree && d.tree[q] == s;
      assert (d.tree - {p})[q] == s;
    }
    forall s | s in Cached(d.tree - {p}) ensures s in Cached(d.tree) - {d.tree[p]} {
      var q :| q in d.tree - {p} && (d.tree - {p})[q] == s;
      assert d.tree[q] == s;
    }
  }

  lemma EvictMore(d: Device, d1: Device, p: Path)
    requires EvictsTo(d, 0, d1) && p in d1.tree && EvictsTo(d1, 0, Dropped(d1, p))
    ensures EvictsTo(d, 0, Dropped(d1, p))
  {
    SubsetCard(d.free, Dropped(d1, p).free);
  }

  // ---- The objects -----------------------------------------------------------------------------

  class DeviceKV {
    var tree: map<Path, Slot>
    var pins: multiset<Path>
    var free: set<Slot>
    var layers: seq<map<Slot, int>>

    function State(): Device
      reads this
    {
      Device(tree, pins, free, layers)
    }

    /** An empty cache over a pool of the slots `free`. */
    constructor (free: set<Slot>, layers: seq<map<Slot, int>>)
      requires forall l :: 0 <= l < |layers| ==> layers[l].Keys == free
      ensures State() == Device(map[], multiset{}, free, layers) && DeviceOk(State())
    {
      this.tree, this.pins, this.free, this.layers := map[], multiset{}, free, layers;
    }

    method MatchPrefix(tokens: Path) returns (indices: seq<Slot>)
      requires DeviceOk(State())
      ensures indices == Matched(tree, tokens)
      ensures forall n :: 1 <= n <= |tokens| ==> (tokens[..n] in tree <==> n <= |indices|)
    {
      hide PathSlots, MatchLen, DeviceOk;
      indices := [];
      MatchStarts(tree, tokens);
      while |indices| < |tokens| && tokens[..|indices| + 1] in tree
        invariant |indices| <= |tokens| && MatchFrom(tree, tokens, |indices|) == MatchLen(tree, tokens)
        invariant PathSlots(tree, tokens, indices)
        decreases |tokens| - |indices|
      {
        PathSlotsMore(tree, tokens, indices);
        indices := indices + [tree[tokens[..|indices| + 1]]];
      }
      LongestMatch(State(), tokens);
      MatchedIs(tree, tokens, indices);
    }

    method IncLockRef(node: Path)
      requires DeviceOk(State()) && (node == [] || node in tree)
      modifies this`pins
      ensures pins == old(pins) + multiset{node} && DeviceOk(State())
    {
      pins := pins + multiset{node};
    }

    method DecLockRef(node: Path)
      requires DeviceOk(State()) && node in pins
      modifies this`pins
      ensures pins == old(pins) - multiset{node} && DeviceOk(State())
    {
      pins := pins - multiset{node};
    }

    /** Evicts unlocked leaves until `n` slots came free or only locked paths remain. */
    method Evict(n: nat)
      requires DeviceOk(State())
      modifies this`tree, this`free
      ensures DeviceOk(State()) && EvictsTo(old(State()), n, State())
    {
      hide DeviceOk, EvictsTo, Cached;
      ghost var before := State();
      EvictNothing(before);
      var left: nat := n;
      while left > 0 && Unlocked(State()) != {}
        invariant DeviceOk(State()) && EvictsTo(before, 0, State()) && left <= n && |free| == |before.free| + (n - left)
        decreases left
      {
        LongestExists(Unlocked(State()));
        var p :| p in Unlocked(State()) && forall q :: q in Unlocked(State()) ==> |q| <= |p|;
        DropKeeps(State(), p);
        EvictMore(before, State(), p);
        tree, free, left := tree - {p}, free + {tree[p]}, left - 1;
      }
      EvictEnds(before, n, State(), left);
    }

    /** `alloc`: `n` free slots, or nothing when there are fewer. */
    method Alloc(n: nat) returns (slots: Option<seq<Slot>>)
      requires DeviceOk(State())
      modifies this`free
      ensures slots == None <==> n > old(|free|)
      ensures slots == None ==> free == old(free)
      ensures slots.Some? ==> |slots.value| == n && NoDup(slots.value) && Distinct(slots.value, State())
      ensures slots.Some? ==> free == old(free) - (set s | s in slots.value) && forall s :: s in slots.value ==>
        s in old(free)
      ensures DeviceOk(State())
    {
      if n > |free| {
        return None;
      }
      hide TakenFrom;
      ghost var before := State();
      var taken: seq<Slot> := [];
      TakenNone(free);
      while |taken| < n
        invariant |taken| <= n <= |free| + |taken| && TakenFrom(before.free, taken, free)
      {
        var s :| s in free;
        TakenMore(before.free, taken, free, s);
        taken, free := taken + [s], free - {s};
      }
      AllocOk(before, taken, free);
      slots := Some(taken);
    }

    /** `free`: the slots go back to the pool. */
    method Free(slots: seq<Slot>)
      requires DeviceOk(State()) && Distinct(slots, State())
      modifies this`free
      ensures free == old(free) + (set s | s in slots) && DeviceOk(State())
    {
      free := free + (set s | s in slots);
    }

    /** `insert`: caches the path, keeps what was cached, and returns how many tokens were cached before. */
    method Insert(tokens: Path, slots: seq<Slot>) returns (shared: nat)
      requires DeviceOk(State()) && |slots| == |tokens| && Distinct(slots[MatchLen(tree, tokens)..], State())
      modifies this`tree
      ensures shared == MatchLen(old(tree), tokens) && tree == Inserted(old(tree), tokens, slots, shared)
      ensures DeviceOk(State())
    {
      InsertKeeps(State(), tokens, slots);
      var matched := MatchPrefix(tokens);
      shared := |matched|;
      tree := Inserted(tree, tokens, slots, shared);
    }
  }

  /** The slots `taken` came out of the pool `before` one at a time, and `free` is what is left of it. */
  ghost predicate TakenFrom(before: set<Slot>, taken: seq<Slot>, free: set<Slot>) {
    && NoDup(taken)
    && free == before - (set s | s in taken)
    && (forall s :: s in taken ==> s in before)
  }

  lemma TakenNone(before: set<Slot>)
    ensures TakenFrom(before, [], before)
  {
  }

  lemma TakenMore(before: set<Slot>, taken: seq<Slot>, free: set<Slot>, s: Slot)
    requires TakenFrom(before, taken, free) && s in free
    ensures TakenFrom(before, taken + [s], free - {s})
  {
    assert s !in taken;
  }

  lemma AllocOk(d: Device, taken: seq<Slot>, free: set<Slot>)
    requires DeviceOk(d) && TakenFrom(d.free, taken, free)
    ensures NoDup(taken) && free == d.free - (set s | s in taken) && (forall s :: s in taken ==> s in d.free)
    ensures DeviceOk(d.(free := free)) && Distinct(taken, d.(free := free))
  {
  }

  lemma EvictNothing(d: Device)
    ensures EvictsTo(d, 0, d)
  {
  }

  lemma EvictEnds(d: Device, n: nat, d': Device, left: nat)
    requires EvictsTo(d, 0, d') && left <= n && |d'.free| == |d.free| + (n - left) && (left == 0 || Unlocked(d') == {})
    ensures EvictsTo(d, n, d')
  {
    if Unlocked(d') == {} {
      forall p | p in d'.tree ensures Protected(d.pins, p) {
        assert p !in Unlocked(d');
      }
    }
  }
}
