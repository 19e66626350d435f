/** Synchronous swapping of a request's KV between the device pool and host memory. */
module HostKVs {
  import opened Sequences
  import opened DeviceKVs

  /** A backup: the tokens, and for every layer the value of each token. */
  datatype Entry = Entry(tokens: Path, host: seq<seq<int>>)

  type Backups = map<string, Entry>

  /** `numel() * element_size()` of a backup: `rowBytes` for each layer and token. */
  function Bytes(e: Entry, rowBytes: nat): nat { |e.host| * |e.tokens| * rowBytes }

  ghost function TotalBytes(saved: Backups, rowBytes: nat): nat
    decreases |saved|
  {
    if saved == map[] then 0 else
      var rid :| rid in saved;
      Bytes(saved[rid], rowBytes) + TotalBytes(saved - {rid}, rowBytes)
  }

  /** The sum does not depend on the order in which it is taken. */
  lemma {:induction false} TotalSplits(saved: Backups, rowBytes: nat, rid: string)
    requires rid in saved
    ensures TotalBytes(saved, rowBytes) == Bytes(saved[rid], rowBytes) + TotalBytes(saved - {rid}, rowBytes)
    decreases |saved|
  {
    var first :| first in saved
      && TotalBytes(saved, rowBytes) == Bytes(saved[first], rowBytes) + TotalBytes(saved - {first}, rowBytes);
    if first != rid {
      TotalSplits(saved - {first}, rowBytes, rid);
      TotalSplits(saved - {rid}, rowBytes, first);
      assert saved - {first} - {rid} == saved - {rid} - {first};
    }
  }

  lemma TotalUpdated(saved: Backups, rowBytes: nat, rid: string, e: Entry)
    ensures TotalBytes(saved[rid := e], rowBytes) == Bytes(e, rowBytes) + TotalBytes(saved - {rid}, rowBytes)
    ensures rid !in saved ==> saved - {rid} == saved
  {
    TotalSplits(saved[rid := e], rowBytes, rid);
    assert saved[rid := e] - {rid} == saved - {rid};
  }

  lemma TotalShrinks(saved: Backups, rowBytes: nat, rid: string)
    ensures TotalBytes(saved - {rid}, rowBytes) <= TotalBytes(saved, rowBytes)
  {
    if rid in saved {
      TotalSplits(saved, rowBytes, rid);
    } else {
      assert saved - {rid} == saved;
    }
  }

  /** The terms of a host store: its limit, and what one token costs. */
  datatype Terms = Terms(limit: nat, rowBytes: nat, layers: nat)

  function Cost(h: Terms, tokens: nat): nat { h.layers * tokens * h.rowBytes }

  /** What the others occupy leaves no room for a backup of this size. */
  ghost predicate OverBudget(h: Terms, saved: Backups, rid: string, tokens: nat) {
    TotalBytes(saved - {rid}, h.rowBytes) + Cost(h, tokens) > h.limit
  }

  ghost predicate WellFormed(e: Entry, layers: nat) {
    |e.host| == layers && forall l :: 0 <= l < layers ==> |e.host[l]| == |e.tokens|
  }

  /** The budget is kept exactly, and every backup has one value per layer and token. */
  ghost predicate HostOk(saved: Backups, used: nat, limit: nat, rowBytes: nat, layers: nat) {
    used == TotalBytes(saved, rowBytes) && used <= limit && forall rid :: rid in saved ==>
      WellFormed(saved[rid], layers)
  }

  /** What a backup holds for its `i`-th token. */
  function Column(host: seq<seq<int>>, i: nat): seq<int>
    requires forall l :: 0 <= l < |host| ==> i < |host[l]|
  {
    seq(|host|, l requires 0 <= l < |host| => host[l][i])
  }

  /** `index_copy_` of one layer. */
  function CopyInto(layer: map<Slot, int>, slots: seq<Slot>, values: seq<int>): map<Slot, int>
    requires |slots| == |values|
  {
    if slots == [] then layer
    else CopyInto(layer, slots[..|slots| - 1], values[..|slots| - 1])[slots[|slots| - 1] := values[|slots| - 1]]
  }

  lemma {:induction false} CopiedInto(layer: map<Slot, int>, slots: seq<Slot>, values: seq<int>)
    requires |slots| == |values| && NoDup(slots)
    ensures forall s :: s in CopyInto(layer, slots, values) <==> s in layer || s in slots
    ensures forall i :: 0 <= i < |slots| ==>
      slots[i] in CopyInto(layer, slots, values) && CopyInto(layer, slots, values)[slots[i]] == values[i]
    ensures forall s :: s in layer && s !in slots ==> CopyInto(layer, slots, values)[s] == layer[s]
  {
    if slots != [] {
      var n := |slots| - 1;
      CopiedInto(layer, slots[..n], values[..n]);
      PopLast(slots);
    }
  }

  /** The payload goes to its slots, and every other slot keeps its values. */
  ghost predicate Written(before: seq<map<Slot, int>>, after: seq<map<Slot, int>>, slots: seq<Slot>,
                          payload: seq<seq<int>>, n: nat)
    requires n <= |before| == |after| == |payload|
  {
    && (forall l :: n <= l < |before| ==> after[l] == before[l])
    && (forall l :: 0 <= l < n ==> |payload[l]| == |slots| && after[l] == CopyInto(before[l], slots, payload[l]))
  }

  datatype Saving = Saved | BudgetExhausted | CopyFailed

  datatype Restoring = Restored(bool) | TransferFailed

  // ---- What restoring may change --------------------------------------------------------------

  ghost predicate HasSlot(layers: seq<map<Slot, int>>, s: Slot) { forall l :: 0 <= l < |layers| ==> s in layers[l] }

  /** Slots of other owners keep their values, in every layer. */
  ghost predicate OthersKept(before: seq<map<Slot, int>>, after: seq<map<Slot, int>>, pool: set<Slot>) {
    |after| == |before| && forall l, s :: 0 <= l < |before| && s in before[l] && s !in pool ==>
      s in after[l] && after[l][s] == before[l][s]
  }

  ghost predicate SameRow(before: Device, after: Device, p: Path)
    requires p in before.tree && p in after.tree
  {
    && after.tree[p] == before.tree[p]
    && HasSlot(before.layers, before.tree[p]) && HasSlot(after.layers, before.tree[p])
    && Row(after.layers, before.tree[p]) == Row(before.layers, before.tree[p])
  }

  /** On every exit: locks as before, no slot lost or owned twice, locked paths still cached, and cached values
      unchanged. */
  ghost predicate Conserves(before: Device, after: Device, tokens: Path) {
    && after.pins == before.pins
    && after.free + Cached(after.tree) == before.free + Cached(before.tree)
    && (forall p :: p in before.tree && Protected(before.pins, p) ==> p in after.tree)
    && (forall p :: p in after.tree && p in before.tree ==> SameRow(before, after, p))
    && (forall p :: p in after.tree && p !in before.tree ==> p <= tokens)
    && OthersKept(before.layers, after.layers, before.free + Cached(before.tree))
  }

  /** Success: the whole path is cached. The shared prefix keeps its slots and values; the rest reads what was saved. */
  ghost predicate ReadsBack(before: Device, after: Device, e: Entry)
    requires WellFormed(e, |before.layers|)
  {
    var m := MatchLen(before.tree, e.tokens);
    forall n :: 1 <= n <= |e.tokens| ==>
      && e.tokens[..n] in after.tree && HasSlot(after.layers, after.tree[e.tokens[..n]])
      && (n <= m ==> e.tokens[..n] in before.tree && SameRow(before, after, e.tokens[..n]))
      && (n > m ==> Row(after.layers, after.tree[e.tokens[..n]]) == Column(e.host, n - 1))
  }

  /** Refusal: the missing suffix does not fit even after evicting everything that nobody holds. */
  ghost predicate NoRoom(before: Device, after: Device, e: Entry) {
    && |after.free| < |e.tokens| - MatchLen(before.tree, e.tokens)
    && forall p :: p in after.tree ==> Protected(before.pins, p) || p <= e.tokens
  }

  /** Every exit of `restore` for a saved request. */
  ghost predicate RestoresTo(before: Device, after: Device, e: Entry, faultAt: nat, r: Restoring)
    requires WellFormed(e, |before.layers|)
  {
    && Conserves(before, after, e.tokens)
    && (r != Restored(true) ==> forall p :: p in after.tree ==> p in before.tree)
    && match r
       case Restored(done) => if done then ReadsBack(before, after, e) else NoRoom(before, after, e)
       case TransferFailed => faultAt <= |before.layers|
  }

  /** The device after eviction, with the matched prefix still locked. */
  ghost predicate Mid(before: Device, mid: Device, node: Path) {
    && DeviceOk(mid) && mid.pins == before.pins + multiset{node} && mid.layers == before.layers
    && (forall p :: p in mid.tree ==> p in before.tree && mid.tree[p] == before.tree[p])
    && (forall p :: p in before.tree && (Protected(before.pins, p) || p <= node) ==> p in mid.tree)
    && mid.free + Cached(mid.tree) == before.free + Cached(before.tree)
  }

  /** Nothing is left to evict. */
  ghost predicate AllHeld(before: Device, mid: Device, node: Path) {
    forall p :: p in mid.tree ==> Protected(before.pins, p) || p <= node
  }

  ghost predicate Taken(mid: Device, slots: seq<Slot>) { NoDup(slots) && forall s :: s in slots ==> s in mid.free }

  lemma LockedThenEvicted(before: Device, mid: Device, node: Path, n: nat)
    requires DeviceOk(before) && DeviceOk(mid) && EvictsTo(before.(pins := before.pins + multiset{node}), n, mid)
    ensures Mid(before, mid, node)
    ensures |mid.free| >= |before.free| + n || AllHeld(before, mid, node)
  {
    var locked := before.(pins := before.pins + multiset{node});
    forall p | Protected(before.pins, p) || p <= node ensures Protected(locked.pins, p) {
      if Protected(before.pins, p) {
        var q :| q in before.pins && p <= q;
        assert q in locked.pins;
      } else {
        assert node in locked.pins;
      }
    }
    forall p | Protected(locked.pins, p) ensures Protected(before.pins, p) || p <= node {
      var q :| q in locked.pins && p <= q;
      assert q == node || q in before.pins;
    }
  }

  lemma MidMatches(before: Device, mid: Device, tokens: Path)
    requires DeviceOk(before) && Mid(before, mid, tokens[..MatchLen(before.tree, tokens)])
    ensures MatchLen(mid.tree, tokens) == MatchLen(before.tree, tokens)
  {
    var m := MatchLen(before.tree, tokens);
    forall n | 1 <= n <= |tokens| ensures tokens[..n] in mid.tree <==> tokens[..n] in before.tree {
      LongestAt(before.tree, tokens, n);
      assert n <= m ==> tokens[..n] <= tokens[..m];
    }
    SameMatch(before.tree, mid.tree, tokens, 0);
  }

  lemma {:induction false} SameMatch(tree: map<Path, Slot>, tree': map<Path, Slot>, tokens: Path, n: nat)
    requires n <= |tokens| && forall k :: 1 <= k <= |tokens| ==> (tokens[..k] in tree' <==> tokens[..k] in tree)
    ensures MatchFrom(tree', tokens, n) == MatchFrom(tree, tokens, n)
    decreases |tokens| - n
  {
    if n < |tokens| {
      SameMatch(tree, tree', tokens, n + 1);
    }
  }

  /** Only slots that were free are written. */
  ghost predicate OnlyWrites(before: seq<map<Slot, int>>, after: seq<map<Slot, int>>, slots: seq<Slot>) {
    |after| == |before| && forall l :: 0 <= l < |before| ==> LayerWrites(before[l], after[l], slots)
  }

  ghost predicate LayerWrites(before: map<Slot, int>, after: map<Slot, int>, slots: seq<Slot>) {
    forall s :: s in before ==> s in after && (s !in slots ==> after[s] == before[s])
  }

  lemma WritesOnly(before: seq<map<Slot, int>>, after: seq<map<Slot, int>>, slots: seq<Slot>, payload: seq<seq<int>>,
                   n: nat)
    requires n <= |before| == |after| == |payload| && NoDup(slots) && Written(before, after, slots, payload, n)
    ensures OnlyWrites(before, after, slots)
  {
    forall l | 0 <= l < n ensures LayerWrites(before[l], after[l], slots) {
      CopiedInto(before[l], slots, payload[l]);
    }
  }

  lemma KeptRow(before: Device, after: Device, slots: seq<Slot>, p: Path)
    requires DeviceOk(before) && p in before.tree && p in after.tree && after.tree[p] == before.tree[p]
    requires OnlyWrites(before.layers, after.layers, slots) && before.tree[p] !in slots
    ensures SameRow(before, after, p)
  {
    assert before.tree[p] in Cached(before.tree);
  }

  /** Refused, or failed half way: the slots that were taken are free again. */
  lemma UndoneConserves(before: Device, mid: Device, node: Path, tokens: Path, slots: seq<Slot>,
                        layers: seq<map<Slot, int>>)
    requires DeviceOk(before) && Mid(before, mid, node) && (forall s :: s in slots ==> s in mid.free)
      && OnlyWrites(before.layers, layers, slots)
    ensures DeviceOk(mid.(pins := before.pins, layers := layers))
    ensures Conserves(before, mid.(pins := before.pins, layers := layers), tokens) && forall p :: p in mid.tree ==>
      p in before.tree
  {
    var after := mid.(pins := before.pins, layers := layers);
    forall p | p in after.tree ensures SameRow(before, after, p) {
      assert mid.tree[p] in Cached(mid.tree);
      KeptRow(before, after, slots, p);
    }
    UndoneOk(mid, layers, slots);
    PinsCached(before, after);
    hide Cached, Protected, PrefixClosed, Injective, SameRow;
  }

  lemma UndoneOk(mid: Device, layers: seq<map<Slot, int>>, slots: seq<Slot>)
    requires DeviceOk(mid) && OnlyWrites(mid.layers, layers, slots)
    ensures forall l :: 0 <= l < |layers| ==> forall s :: s in mid.free || s in Cached(mid.tree) ==> s in layers[l]
  {
    forall l, s | 0 <= l < |layers| && (s in mid.free || s in Cached(mid.tree)) ensures s in layers[l] {
      assert LayerWrites(mid.layers[l], layers[l], slots);
    }
  }

  lemma PinsCached(before: Device, after: Device)
    requires DeviceOk(before) && forall p :: p in before.tree && Protected(before.pins, p) ==> p in after.tree
    ensures forall p :: p in before.pins ==> p == [] || p in after.tree
  {
    forall p | p in before.pins && p != [] ensures p in after.tree {
      assert p <= p;
      assert Protected(before.pins, p);
    }
  }

  /** Succeeded: the new slots hold the suffix. */
  lemma SuccessConserves(before: Device, mid: Device, e: Entry, slots: seq<Slot>, layers: seq<map<Slot, int>>,
                         after: Device)
    requires DeviceOk(before) && WellFormed(e, |before.layers|) && MatchLen(before.tree, e.tokens) <= |e.tokens|
    requires Mid(before, mid, e.tokens[..MatchLen(before.tree, e.tokens)])
    requires NoDup(slots) && (forall s :: s in slots ==> s in mid.free) && OnlyWrites(before.layers, layers, slots)
    requires |slots| == |e.tokens| - MatchLen(before.tree, e.tokens)
    requires var prefix := Matched(before.tree, e.tokens);
      && after.tree == Inserted(mid.tree, e.tokens, prefix + slots, MatchLen(before.tree, e.tokens))
      && after.pins == before.pins && after.layers == layers && after.free == mid.free - (set s | s in slots)
    ensures Conserves(before, after, e.tokens)
  {
    SuccessRows(before, mid, e, slots, after);
    SuccessSlots(before, mid, e, slots, after);
    hide MatchLen, Inserted, SameRow, Matched, PrefixClosed, Injective, HasSlot, Mid, DeviceOk, OthersKept;
    OthersUntouched(before, mid, after, slots, e.tokens[..MatchLen(before.tree, e.tokens)]);
  }

  lemma OthersUntouched(before: Device, mid: Device, after: Device, slots: seq<Slot>, node: Path)
    requires Mid(before, mid, node) && (forall s :: s in slots ==> s in mid.free)
      && OnlyWrites(before.layers, after.layers, slots)
    ensures OthersKept(before.layers, after.layers, before.free + Cached(before.tree))
  {
    forall l, s | 0 <= l < |before.layers| && s in before.layers[l] && s !in before.free + Cached(before.tree)
      ensures s in after.layers[l] && after.layers[l][s] == before.layers[l][s]
    {
      assert s !in mid.free;
    }
  }

  lemma SuccessRows(before: Device, mid: Device, e: Entry, slots: seq<Slot>, after: Device)
    requires DeviceOk(before) && Mid(before, mid, e.tokens[..MatchLen(before.tree, e.tokens)])
    requires (forall s :: s in slots ==> s in mid.free) && OnlyWrites(before.layers, after.layers, slots)
    requires |slots| == |e.tokens| - MatchLen(before.tree, e.tokens)
    requires after.tree == Inserted(mid.tree, e.tokens, Matched(before.tree, e.tokens) + slots,
      MatchLen(before.tree, e.tokens))
    ensures forall p :: p in after.tree && p in before.tree ==> SameRow(before, after, p)
    ensures forall p :: p in after.tree && p !in before.tree ==> p <= e.tokens
    ensures forall p :: p in before.tree && Protected(before.pins, p) ==> p in after.tree
  {
    var m, all := MatchLen(before.tree, e.tokens), Matched(before.tree, e.tokens) + slots;
    hide MatchLen, Inserted, Matched, Protected, SameRow, DeviceOk, OnlyWrites;
    forall p | p in after.tree ensures if p in before.tree then SameRow(before, after, p) else p <= e.tokens {
      InsertedAt(mid.tree, e.tokens, all, m, p);
      SuccessRow(before, mid, e, slots, after, p);
    }
    forall p | p in before.tree && Protected(before.pins, p) ensures p in after.tree {
      InsertedAt(mid.tree, e.tokens, all, m, p);
    }
  }

  lemma SuccessSlots(before: Device, mid: Device, e: Entry, slots: seq<Slot>, after: Device)
    requires DeviceOk(before) && Mid(before, mid, e.tokens[..MatchLen(before.tree, e.tokens)])
    requires (forall s :: s in slots ==> s in mid.free) && |slots| == |e.tokens| - MatchLen(before.tree, e.tokens)
    requires after.tree == Inserted(mid.tree, e.tokens, Matched(before.tree, e.tokens) + slots,
      MatchLen(before.tree, e.tokens))
    requires after.free == mid.free - (set s | s in slots)
    ensures after.free + Cached(after.tree) == before.free + Cached(before.tree)
  {
    var m, all := MatchLen(before.tree, e.tokens), Matched(before.tree, e.tokens) + slots;
    MidMatches(before, mid, e.tokens);
    InsertCached(mid, e.tokens, all);
    assert all[m..] == slots;
    hide MatchLen, Inserted, Matched, Protected, DeviceOk;
    assert after.free + Cached(after.tree) == mid.free + Cached(mid.tree);
  }

  lemma SuccessRow(before: Device, mid: Device, e: Entry, slots: seq<Slot>, after: Device, p: Path)
    requires DeviceOk(before) && Mid(before, mid, e.tokens[..MatchLen(before.tree, e.tokens)])
    requires (forall s :: s in slots ==> s in mid.free) && OnlyWrites(before.layers, after.layers, slots)
    requires p in after.tree && (p in mid.tree ==> after.tree[p] == mid.tree[p])
    requires p !in mid.tree ==> MatchLen(before.tree, e.tokens) < |p| <= |e.tokens| && p == e.tokens[..|p|]
    ensures if p in before.tree then SameRow(before, after, p) else p <= e.tokens
  {
    if p in mid.tree {
      assert mid.tree[p] in Cached(mid.tree);
      KeptRow(before, after, slots, p);
    } else {
      LongestAt(before.tree, e.tokens, |p|);
    }
  }

  lemma SharedReads(before: Device, mid: Device, e: Entry, slots: seq<Slot>, after: Device)
    requires DeviceOk(before) && Mid(before, mid, e.tokens[..MatchLen(before.tree, e.tokens)])
    requires (forall s :: s in slots ==> s in mid.free) && |slots| == |e.tokens| - MatchLen(before.tree, e.tokens)
    requires OnlyWrites(before.layers, after.layers, slots)
    requires after.tree == Inserted(mid.tree, e.tokens, Matched(before.tree, e.tokens) + slots,
      MatchLen(before.tree, e.tokens))
    ensures forall n :: 1 <= n <= MatchLen(before.tree, e.tokens) ==>
      e.tokens[..n] in after.tree && e.tokens[..n] in before.tree && SameRow(before, after, e.tokens[..n])
  {
    var m, all := MatchLen(before.tree, e.tokens), Matched(before.tree, e.tokens) + slots;
    MidMatches(before, mid, e.tokens);
    hide MatchLen, Inserted, Matched, SameRow, OnlyWrites, Protected, PrefixClosed, Injective;
    forall n | 1 <= n <= m
      ensures e.tokens[..n] in after.tree && e.tokens[..n] in before.tree && SameRow(before, after, e.tokens[..n])
    {
      LongestAt(before.tree, e.tokens, n);
      LongestAt(mid.tree, e.tokens, n);
      InsertedAt(mid.tree, e.tokens, all, m, e.tokens[..n]);
      SuccessRow(before, mid, e, slots, after, e.tokens[..n]);
    }
  }

  lemma WrittenRow(before: seq<map<Slot, int>>, after: seq<map<Slot, int>>, slots: seq<Slot>, e: Entry, m: nat,
                   payload: seq<seq<int>>, i: nat)
    requires |before| == |after| == |payload| && NoDup(slots) && Written(before, after, slots, payload, |payload|)
    requires WellFormed(e, |payload|) && i < |slots| && |slots| == |e.tokens| - m
    requires forall l :: 0 <= l < |payload| ==> payload[l] == e.host[l][m..]
    ensures HasSlot(after, slots[i]) && Row(after, slots[i]) == Column(e.host, m + i)
  {
    forall l | 0 <= l < |after| ensures slots[i] in after[l] && after[l][slots[i]] == e.host[l][m + i] {
      CopiedInto(before[l], slots, payload[l]);
    }
  }

  lemma SuffixReads(before: Device, mid: Device, e: Entry, slots: seq<Slot>, payload: seq<seq<int>>, after: Device,
                    n: nat)
    requires PrefixClosed(mid.tree) && WellFormed(e, |before.layers|)
      && MatchLen(mid.tree, e.tokens) == MatchLen(before.tree, e.tokens) < n <= |e.tokens|
    requires NoDup(slots) && |slots| == |e.tokens| - MatchLen(before.tree, e.tokens)
    requires |payload| == |before.layers| == |after.layers|
      && Written(before.layers, after.layers, slots, payload, |payload|)
    requires forall l :: 0 <= l < |payload| ==> payload[l] == e.host[l][MatchLen(before.tree, e.tokens)..]
    requires after.tree == Inserted(mid.tree, e.tokens, Matched(before.tree, e.tokens) + slots,
      MatchLen(before.tree, e.tokens))
    ensures e.tokens[..n] in after.tree && HasSlot(after.layers, after.tree[e.tokens[..n]])
    ensures Row(after.layers, after.tree[e.tokens[..n]]) == Column(e.host, n - 1)
  {
    hide MatchLen, Inserted, Matched, Written, PrefixClosed, Row, Column, HasSlot;
    var m, all := MatchLen(before.tree, e.tokens), Matched(before.tree, e.tokens) + slots;
    InsertedNew(mid.tree, e.tokens, all, n);
    assert all[n - 1] == slots[n - 1 - m];
    WrittenRow(before.layers, after.layers, slots, e, m, payload, n - 1 - m);
  }

  /** Everything that was missing now reads what was saved. */
  lemma SuccessReads(before: Device, mid: Device, e: Entry, slots: seq<Slot>, payload: seq<seq<int>>, after: Device)
    requires DeviceOk(before) && WellFormed(e, |before.layers|)
    requires Mid(before, mid, e.tokens[..MatchLen(before.tree, e.tokens)])
    requires NoDup(slots) && (forall s :: s in slots ==> s in mid.free)
      && |slots| == |e.tokens| - MatchLen(before.tree, e.tokens)
    requires |payload| == |before.layers| == |after.layers|
      && Written(before.layers, after.layers, slots, payload, |payload|)
    requires forall l :: 0 <= l < |payload| ==> payload[l] == e.host[l][MatchLen(before.tree, e.tokens)..]
    requires after.tree == Inserted(mid.tree, e.tokens, Matched(before.tree, e.tokens) + slots,
      MatchLen(before.tree, e.tokens))
    ensures ReadsBack(before, after, e)
  {
    hide MatchLen, Inserted, Matched, Written, OnlyWrites, Protected, Row, Column;
    MidMatches(before, mid, e.tokens);
    WritesOnly(before.layers, after.layers, slots, payload, |payload|);
    SharedReads(before, mid, e, slots, after);
    var m := MatchLen(before.tree, e.tokens);
    assert PrefixClosed(mid.tree);
    hide DeviceOk, Mid;
    forall n | m < n <= |e.tokens|
      ensures e.tokens[..n] in after.tree && HasSlot(after.layers, after.tree[e.tokens[..n]])
      ensures Row(after.layers, after.tree[e.tokens[..n]]) == Column(e.host, n - 1)
    {
      SuffixReads(before, mid, e, slots, payload, after, n);
    }
  }

  // ---- The swap object -----------------------------------------------------------------------------

  ghost predicate Backed(layers: seq<map<Slot, int>>, slots: seq<Slot>) {
    forall i :: 0 <= i < |slots| ==> HasSlot(layers, slots[i])
  }

  /** The backup holds exactly what the slots hold, token by token. */
  ghost predicate Copies(e: Entry, layers: seq<map<Slot, int>>, slots: seq<Slot>) {
    && WellFormed(e, |layers|) && Backed(layers, slots) && |e.tokens| == |slots|
    && forall i :: 0 <= i < |slots| ==> Column(e.host, i) == Row(layers, slots[i])
  }

  /** `index_select` of every layer. */
  method Gather(layers: seq<map<Slot, int>>, slots: seq<Slot>, ghost tokens: Path) returns (host: seq<seq<int>>)
    requires Backed(layers, slots) && |tokens| == |slots|
    ensures Copies(Entry(tokens, host), layers, slots)
  {
    host := [];
    for l := 0 to |layers|
      invariant |host| == l && forall k :: 0 <= k < l ==> |host[k]| == |slots| && forall i :: 0 <= i < |slots| ==>
        host[k][i] == layers[k][slots[i]]
    {
      host := host + [seq(|slots|, i requires 0 <= i < |slots| => layers[l][slots[i]])];
    }
  }

  /** Copies the missing values to the new slots, layer by layer; raises before layer `faultAt`, if it gets there. */
  method Transfer(layers0: seq<map<Slot, int>>, slots: seq<Slot>, host: seq<seq<int>>, m: nat, faultAt: nat)
      returns (layers: seq<map<Slot, int>>, ghost payload: seq<seq<int>>, done: bool)
    requires |host| == |layers0| && NoDup(slots) && forall l :: 0 <= l < |host| ==> |host[l]| == m + |slots|
    ensures |layers| == |layers0| == |payload| && (forall l :: 0 <= l < |payload| ==> payload[l] == host[l][m..])
    ensures OnlyWrites(layers0, layers, slots)
    ensures done ==> Written(layers0, layers, slots, payload, |payload|)
    ensures done <==> faultAt > |layers0|
  {
    layers := layers0;
    payload := seq(|host|, l requires 0 <= l < |host| => host[l][m..]);
    for l := 0 to |layers0|
      invariant |layers| == |layers0| && Written(layers0, layers, slots, payload, l) && faultAt >= l
    {
      if l == faultAt {
        WritesOnly(layers0, layers, slots, payload, l);
        return layers, payload, false;
      }
      layers := layers[l := CopyInto(layers[l], slots, host[l][m..])];
    }
    WritesOnly(layers0, layers, slots, payload, |layers0|);
    done := faultAt > |layers0|;
  }

  lemma SaveKeeps(saved: Backups, used: nat, limit: nat, rowBytes: nat, layers: nat, rid: string, e: Entry)
    requires HostOk(saved, used, limit, rowBytes, layers) && WellFormed(e, layers)
    ensures var old' := if rid in saved then Bytes(saved[rid], rowBytes) else 0;
      && used - old' >= 0
      && (used - old' + Bytes(e, rowBytes) <= limit ==>
         HostOk(saved[rid := e], used - old' + Bytes(e, rowBytes), limit, rowBytes, layers))
      && HostOk(saved - {rid}, used - old', limit, rowBytes, layers)
  {
    TotalUpdated(saved, rowBytes, rid, e);
    if rid in saved {
      TotalSplits(saved, rowBytes, rid);
    }
  }

  /** The running counter says what the others occupy. */
  lemma BudgetIs(h: Terms, saved: Backups, used: nat, rid: string, tokens: nat)
    requires HostOk(saved, used, h.limit, h.rowBytes, h.layers)
    ensures OverBudget(h, saved, rid, tokens) <==>
      used - (if rid in saved then Bytes(saved[rid], h.rowBytes) else 0) + Cost(h, tokens) > h.limit
  {
    if rid in saved {
      TotalSplits(saved, h.rowBytes, rid);
    } else {
      assert saved - {rid} == saved;
    }
  }

  class HostKV {
    const device: DeviceKV
    const limitBytes: nat
    const rowBytes: nat
    var usedBytes: nat
    var saved: Backups

    ghost predicate Valid()
      reads this, device
    {
      DeviceOk(device.State()) && HostOk(saved, usedBytes, limitBytes, rowBytes, |device.layers|)
    }

    function Agreed(): Terms
      reads device
    {
      Terms(limitBytes, rowBytes, |device.layers|)
    }

    constructor (device: DeviceKV, limitBytes: nat, rowBytes: nat)
      requires DeviceOk(device.State())
      ensures Valid() && this.device == device && saved == map[] && usedBytes == 0
      ensures this.limitBytes == limitBytes && this.rowBytes == rowBytes
    {
      this.device, this.limitBytes, this.rowBytes, usedBytes, saved := device, limitBytes, rowBytes, 0, map[];
    }

    method Discard(rid: string)
      requires Valid()
      modifies this
      ensures Valid() && saved == old(saved) - {rid}
    {
      if rid in saved {
        SaveKeeps(saved, usedBytes, limitBytes, rowBytes, |device.layers|, rid, saved[rid]);
        usedBytes := usedBytes - Bytes(saved[rid], rowBytes);
        saved := saved - {rid};
      }
    }

    /** `save`: `fails` says whether the allocation or copy raises. A save that fails keeps the old backup. */
    method Save(rid: string, tokens: Path, indices: seq<Slot>, fails: bool) returns (r: Saving)
      requires Valid() && |tokens| == |indices| && Backed(device.layers, indices)
      modifies this
      ensures Valid()
      ensures r == BudgetExhausted <==>
        old(usedBytes) - (if rid in old(saved) then Bytes(old(saved)[rid], rowBytes) else 0)
          + |device.layers| * |tokens| * rowBytes > limitBytes
      ensures r == BudgetExhausted <==> OverBudget(old(Agreed()), old(saved), rid, |tokens|)
      ensures r == CopyFailed <==> fails && !OverBudget(old(Agreed()), old(saved), rid, |tokens|)
      ensures r != Saved ==> saved == old(saved) && usedBytes == old(usedBytes)
      ensures r == Saved ==> rid in saved && saved == old(saved)[rid := saved[rid]] && saved[rid].tokens == tokens
      ensures r == Saved ==> Copies(saved[rid], device.layers, indices)
    {
      var oldSize := if rid in saved then Bytes(saved[rid], rowBytes) else 0;
      var size := |device.layers| * |indices| * rowBytes;
      BudgetIs(Agreed(), saved, usedBytes, rid, |tokens|);
      if usedBytes - oldSize + size > limitBytes {
        return BudgetExhausted;
      }
      var host := Gather(device.layers, indices, tokens);
      if fails {
        return CopyFailed;
      }
      SaveKeeps(saved, usedBytes, limitBytes, rowBytes, |device.layers|, rid, Entry(tokens, host));
      saved := saved[rid := Entry(tokens, host)];
      usedBytes := usedBytes - oldSize + size;
      r := Saved;
    }

    /** `restore`: the transfer raises before layer `faultAt` if there is such a layer, or before the insertion. */
    method Restore(rid: string, faultAt: nat) returns (r: Restoring)
      requires Valid()
      modifies device
      ensures Valid() && saved == old(saved) && usedBytes == old(usedBytes)
      ensures if rid in saved then RestoresTo(old(device.State()), device.State(), saved[rid], faultAt, r)
              else r == Restored(false) && device.State() == old(device.State())
    {
      if rid !in saved {
        return Restored(false);
      }
      hide DeviceOk, HostOk, WellFormed, RestoresTo;
      Shape(saved, usedBytes, limitBytes, rowBytes, |device.layers|, rid);
      r := RestoreEntry(saved[rid], faultAt);
    }

    /** `restore` of a saved request. */
    method RestoreEntry(entry: Entry, faultAt: nat) returns (r: Restoring)
      requires DeviceOk(device.State()) && WellFormed(entry, |device.layers|)
      modifies device
      ensures DeviceOk(device.State()) && |device.layers| == old(|device.layers|)
      ensures RestoresTo(old(device.State()), device.State(), entry, faultAt, r)
    {
      hide Mid, MatchLen, DeviceOk, WellFormed, Cached, Matched, Protected, AllHeld, Taken, InHand, RoomMade,
        RestoresTo;
      ghost var before := device.State();
      var prefix := device.MatchPrefix(entry.tokens);
      var m := |prefix|;
      if m == |entry.tokens| {
        AllThere(before, entry, faultAt);
        return Restored(true);
      }
      ghost var mid;
      var taken;
      taken, mid := MakeRoom(entry.tokens, m, before);
      RoomParts(before, entry.tokens, mid, device.State(), taken);
      if taken == None {
        device.DecLockRef(entry.tokens[..m]);
        Refused(before, mid, entry, faultAt);
        return Restored(false);
      }
      r := Fill(entry, prefix, taken.value, faultAt, before, mid);
    }

    /** Copies the missing values into the taken slots and caches the path, or gives the slots back when the copy
        raises. */
    method Fill(entry: Entry, prefix: seq<Slot>, slots: seq<Slot>, faultAt: nat, ghost before: Device,
                ghost mid: Device) returns (r: Restoring)
      requires DeviceOk(before) && WellFormed(entry, |before.layers|) && prefix == Matched(before.tree, entry.tokens)
      requires Mid(before, mid, entry.tokens[..|prefix|]) && device.State() == InHand(mid, slots, before.layers)
      requires Taken(mid, slots) && |slots| == |entry.tokens| - |prefix|
      modifies device
      ensures DeviceOk(device.State()) && |device.layers| == |before.layers|
      ensures RestoresTo(before, device.State(), entry, faultAt, r)
    {
      hide Conserves, ReadsBack, Mid, Written, OnlyWrites, Inserted, MatchLen, DeviceOk, Cached, Distinct, Matched;
      var m, node := |prefix|, entry.tokens[..|prefix|];
      var layers;
      ghost var payload;
      var done;
      layers, payload, done := Transfer(device.layers, slots, entry.host, m, faultAt);
      device.layers := layers;
      TakenOk(before, mid, node, slots, layers);
      if !done {
        device.Free(slots);
        device.DecLockRef(node);
        UndoneConserves(before, mid, node, entry.tokens, slots, layers);
        return TransferFailed;
      }
      ReadyToInsert(before, mid, entry.tokens, prefix, slots, layers);
      var shared := device.Insert(entry.tokens, prefix + slots);
      var duplicates := slots[..if shared > m then shared - m else 0];
      assert duplicates == [];
      NoneDistinct(device.State());
      device.Free(duplicates);
      device.DecLockRef(node);
      SuccessConserves(before, mid, entry, slots, layers, device.State());
      SuccessReads(before, mid, entry, slots, payload, device.State());
      r := Restored(true);
    }

    /** Evicts if fewer than `needed` slots are free. */
    method EvictFor(needed: nat) returns (ghost lack: nat)
      requires DeviceOk(device.State())
      modifies device`tree, device`free
      ensures DeviceOk(device.State()) && EvictsTo(old(device.State()), lack, device.State())
        && old(|device.free|) + lack >= needed
    {
      hide DeviceOk, EvictsTo;
      EvictNothing(device.State());
      lack := 0;
      if |device.free| < needed {
        lack := needed - |device.free|;
        device.Evict(needed - |device.free|);
      }
    }

    /** Locks the matched prefix, evicts if that is needed, and takes slots for the missing suffix. */
    method MakeRoom(tokens: Path, m: nat, ghost before: Device) returns (taken: Option<seq<Slot>>, ghost mid: Device)
      requires device.State() == before && DeviceOk(before) && m == MatchLen(before.tree, tokens) < |tokens|
      modifies device
      ensures RoomMade(before, tokens, mid, device.State(), taken)
    {
      var node, needed := tokens[..m], |tokens| - m;
      NodeCached(before, tokens);
      hide DeviceOk, Mid, EvictsTo, MatchLen, Protected, AllHeld, Distinct, Taken, InHand, RoomMade;
      device.IncLockRef(node);
      ghost var lack := EvictFor(needed);
      mid := device.State();
      LockedThenEvicted(before, mid, node, lack);
      taken := device.Alloc(needed);
      RoomIs(before, tokens, lack, mid, device.State(), taken);
    }
  }

  /** Room is made: `mid` is the device after eviction; the slots are taken from it, or nothing was left to evict. */
  ghost predicate RoomMade(before: Device, tokens: Path, mid: Device, after: Device, taken: Option<seq<Slot>>) {
    var m := MatchLen(before.tree, tokens);
    && DeviceOk(after) && Mid(before, mid, tokens[..m])
    && match taken
       case None => after == mid && |mid.free| < |tokens| - m && AllHeld(before, mid, tokens[..m])
       case Some(slots) => |slots| == |tokens| - m && Taken(mid, slots) && after == InHand(mid, slots, before.layers)
  }

  lemma RoomIs(before: Device, tokens: Path, lack: nat, mid: Device, after: Device, taken: Option<seq<Slot>>)
    requires DeviceOk(after) && Mid(before, mid, tokens[..MatchLen(before.tree, tokens)])
    requires |before.free| + lack >= |tokens| - MatchLen(before.tree, tokens)
    requires |mid.free| >= |before.free| + lack || AllHeld(before, mid, tokens[..MatchLen(before.tree, tokens)])
    requires taken == None ==> after == mid && |mid.free| < |tokens| - MatchLen(before.tree, tokens)
    requires taken.Some? ==> |taken.value| == |tokens| - MatchLen(before.tree, tokens) && Taken(mid, taken.value)
    requires taken.Some? ==> after == mid.(free := mid.free - (set s | s in taken.value))
    ensures RoomMade(before, tokens, mid, after, taken)
  {
  }

  lemma MidParts(before: Device, mid: Device, node: Path)
    requires Mid(before, mid, node)
    ensures mid.layers == before.layers && node in mid.pins && mid.pins - multiset{node} == before.pins
  {
  }

  lemma NodeCached(d: Device, tokens: Path)
    requires DeviceOk(d)
    ensures var node := tokens[..MatchLen(d.tree, tokens)]; node == [] || node in d.tree
  {
    if MatchLen(d.tree, tokens) > 0 {
      LongestAt(d.tree, tokens, MatchLen(d.tree, tokens));
    }
  }

  lemma Shape(saved: Backups, used: nat, limit: nat, rowBytes: nat, layers: nat, rid: string)
    requires HostOk(saved, used, limit, rowBytes, layers) && rid in saved
    ensures WellFormed(saved[rid], layers) && |saved[rid].host| == layers && forall l :: 0 <= l < layers ==>
      |saved[rid].host[l]| == |saved[rid].tokens|
  {
  }

  lemma Refused(before: Device, mid: Device, e: Entry, faultAt: nat)
    requires DeviceOk(before) && RoomMade(before, e.tokens, mid, mid, None) && WellFormed(e, |before.layers|)
    ensures DeviceOk(mid.(pins := before.pins))
      && RestoresTo(before, mid.(pins := before.pins), e, faultAt, Restored(false))
  {
    UndoneConserves(before, mid, e.tokens[..MatchLen(before.tree, e.tokens)], e.tokens, [], before.layers);
  }

  lemma RoomParts(before: Device, tokens: Path, mid: Device, after: Device, taken: Option<seq<Slot>>)
    requires RoomMade(before, tokens, mid, after, taken)
    ensures var node := tokens[..MatchLen(before.tree, tokens)];
      && DeviceOk(after) && Mid(before, mid, node)
      && mid.layers == before.layers && node in mid.pins && mid.pins - multiset{node} == before.pins
      && (taken == None ==> after == mid)
      && (taken.Some? ==> Taken(mid, taken.value) && |taken.value| == |tokens| - |node| && after == InHand(mid,
         taken.value, before.layers))
  {
    MidParts(before, mid, tokens[..MatchLen(before.tree, tokens)]);
  }

  /** The device while the taken slots are in hand. */
  function InHand(mid: Device, slots: seq<Slot>, layers: seq<map<Slot, int>>): Device {
    mid.(free := mid.free - (set s | s in slots), layers := layers)
  }

  /** Taken slots belong to nobody else. */
  lemma TakenOk(before: Device, mid: Device, node: Path, slots: seq<Slot>, layers: seq<map<Slot, int>>)
    requires Mid(before, mid, node) && NoDup(slots) && (forall s :: s in slots ==> s in mid.free)
      && OnlyWrites(before.layers, layers, slots)
    ensures var now := InHand(mid, slots, layers);
      DeviceOk(now) && Distinct(slots, now) && node in now.pins && now.pins - multiset{node} == before.pins
        && now.free + (set s | s in slots) == mid.free
  {
    UndoneOk(mid, layers, slots);
    hide Cached, PrefixClosed, Injective, OnlyWrites;
  }

  lemma NoneDistinct(d: Device)
    ensures Distinct([], d)
  {
  }

  lemma ReadyToInsert(before: Device, mid: Device, tokens: Path, prefix: seq<Slot>, slots: seq<Slot>,
                      layers: seq<map<Slot, int>>)
    requires DeviceOk(before) && Mid(before, mid, tokens[..MatchLen(before.tree, tokens)])
      && |prefix| == MatchLen(before.tree, tokens)
    ensures MatchLen(mid.tree, tokens) == |prefix| && (prefix + slots)[|prefix|..] == slots
  {
    MidMatches(before, mid, tokens);
  }

  /** A fully cached path needs nothing. */
  lemma AllThere(before: Device, e: Entry, faultAt: nat)
    requires DeviceOk(before) && WellFormed(e, |before.layers|) && MatchLen(before.tree, e.tokens) == |e.tokens|
    ensures RestoresTo(before, before, e, faultAt, Restored(true))
  {
    hide Cached, SameRow, Protected, DeviceOk, MatchLen, HasSlot, Row, Column;
    forall p | p in before.tree ensures SameRow(before, before, p) {
      SameRowItself(before, p);
    }
    LongestMatch(before, e.tokens);
    forall n | 1 <= n <= |e.tokens| ensures HasSlot(before.layers, before.tree[e.tokens[..n]]) {
      SameRowItself(before, e.tokens[..n]);
    }
  }

  lemma SameRowItself(d: Device, p: Path)
    requires DeviceOk(d) && p in d.tree
    ensures HasSlot(d.layers, d.tree[p]) && SameRow(d, d, p)
  {
    assert d.tree[p] in Cached(d.tree);
  }

  // ---- Saving and restoring together ---------------------------------------------------------------

  /** The KV of a token depends only on the tokens up to it: `kv` gives it for every path. */
  ghost predicate Coherent(d: Device, kv: Path -> seq<int>) {
    forall p :: p in d.tree ==> HasSlot(d.layers, d.tree[p]) && Row(d.layers, d.tree[p]) == kv(p)
  }

  ghost predicate Faithful(e: Entry, kv: Path -> seq<int>)
    requires forall l :: 0 <= l < |e.host| ==> |e.host[l]| == |e.tokens|
  {
    forall n :: 1 <= n <= |e.tokens| ==> Column(e.host, n - 1) == kv(e.tokens[..n])
  }

  /** A backup taken from slots that hold the right KV is right. */
  lemma SavedIsFaithful(e: Entry, layers: seq<map<Slot, int>>, slots: seq<Slot>, kv: Path -> seq<int>)
    requires Copies(e, layers, slots) && forall n :: 1 <= n <= |slots| ==>
      Row(layers, slots[n - 1]) == kv(e.tokens[..n])
    ensures Faithful(e, kv)
  {
  }

  /** Restoring keeps the whole cache right on every exit; on success the path reads back exactly what was saved,
      also the part of it that was already shared. */
  lemma RestoreIsExact(before: Device, after: Device, e: Entry, faultAt: nat, r: Restoring, kv: Path -> seq<int>)
    requires DeviceOk(before) && DeviceOk(after) && WellFormed(e, |before.layers|)
      && RestoresTo(before, after, e, faultAt, r)
    requires Coherent(before, kv) && Faithful(e, kv)
    ensures Coherent(after, kv)
    ensures r == Restored(true) ==> forall n :: 1 <= n <= |e.tokens| ==>
      e.tokens[..n] in after.tree && HasSlot(after.layers, after.tree[e.tokens[..n]])
        && Row(after.layers, after.tree[e.tokens[..n]]) == Column(e.host, n - 1)
  {
    if r == Restored(true) {
      forall n | 1 <= n <= |e.tokens|
        ensures e.tokens[..n] in after.tree && HasSlot(after.layers, after.tree[e.tokens[..n]])
        ensures Row(after.layers, after.tree[e.tokens[..n]]) == Column(e.host, n - 1) == kv(e.tokens[..n])
      {
      }
    }
    forall p | p in after.tree
      ensures HasSlot(after.layers, after.tree[p]) && Row(after.layers, after.tree[p]) == kv(p) {
      if p in before.tree {
        assert SameRow(before, after, p);
      } else {
        assert p == e.tokens[..|p|];
      }
    }
  }
}
