/** The scheduling window: policy order frozen for a number of decode steps, with a resident reserve. */
module Windows {
  import opened Sequences
  import opened Levels

  datatype Window = Window(remaining: nat, cohort: seq<string>, active: set<string>, reserve: set<string>)

  /** How many calls decode together, how many more are kept resident, and for how many decode steps. */
  datatype Limits = Limits(capacity: nat, over: nat, interval: nat)

  function Members(s: seq<string>): (r: set<string>)
    ensures forall x :: x in r <==> x in s
  {
    set x | x in s
  }

  function Head(l: Limits, cohort: seq<string>): seq<string> {
    if |cohort| <= l.capacity then cohort else cohort[..l.capacity]
  }

  function Tail(l: Limits, cohort: seq<string>): seq<string> {
    if |cohort| <= l.capacity then [] else cohort[l.capacity..]
  }

  function Among(available: set<string>): string -> bool { x => x in available }

  /** The calls of the cohort that are still there, in cohort order. */
  function Remaining(w: Window, available: set<string>): seq<string> { Filter(w.cohort, Among(available)) }

  predicate Boundary(w: Window, available: set<string>) {
    available != {} && (w.remaining == 0 || Remaining(w, available) == [])
  }

  /** The available calls with the least keys, in key order. */
  ghost predicate LeastKeys(cohort: seq<string>, available: set<string>, keys: Places<string>, n: nat)
    requires available <= keys.Keys
  {
    && NoDup(cohort) && (forall x :: x in cohort ==> x in available) && (|cohort| == n || Members(cohort) == available)
    && |cohort| <= n
    && Sorted(cohort, keys)
    && (forall x, y :: x in cohort && y in available && y !in cohort ==> Before(keys[x], keys[y]))
  }

  function Framed(l: Limits, cohort: seq<string>, remaining: nat): Window {
    Window(remaining, cohort, Members(Head(l, cohort)), Members(Tail(l, cohort)))
  }

  /** What one `select` makes of the window. */
  ghost predicate SelectsTo(l: Limits, w: Window, available: set<string>, keys: Places<string>, w': Window)
    requires available <= keys.Keys
  {
    if available == {} then w' == Window(0, [], {}, {})
    else if Boundary(w, available) then
      LeastKeys(w'.cohort, available, keys, l.capacity + l.over) && w' == Framed(l, w'.cohort, l.interval)
    else w' == Framed(l, Remaining(w, available), w.remaining)
  }

  function Executed(w: Window, prefill: bool): Window {
    if prefill then w else w.(remaining := if w.remaining > 0 then w.remaining - 1 else 0)
  }

  /** `drop_reserve`: the cohort is cut to the capacity. */
  function Dropped(l: Limits, w: Window): Window { w.(cohort := Head(l, w.cohort), reserve := {}) }

  function Cut(cohort: seq<string>, length: nat): seq<string> {
    if length <= |cohort| then cohort[..length] else cohort
  }

  /** `retain_prefix`: admission ended at the first call that did not fit. */
  function Retained(l: Limits, w: Window, length: nat): Window {
    Framed(l, Cut(w.cohort, length), w.remaining)
  }

  // ---- What every step keeps -----------------------------------------------------------

  ghost predicate WindowOk(l: Limits, w: Window) {
    && NoDup(w.cohort) && w.remaining <= l.interval && |w.cohort| <= l.capacity + l.over
    && w.active == Members(Head(l, w.cohort)) && w.reserve == Members(Tail(l, w.cohort))
  }

  lemma Parts(l: Limits, cohort: seq<string>)
    ensures cohort == Head(l, cohort) + Tail(l, cohort) && |Head(l, cohort)| <= l.capacity
    ensures NoDup(cohort) ==> Members(Head(l, cohort)) !! Members(Tail(l, cohort))
    ensures Members(cohort) == Members(Head(l, cohort)) + Members(Tail(l, cohort))
  {
    var head, tail := Head(l, cohort), Tail(l, cohort);
    assert cohort == head + tail;
    if NoDup(cohort) {
      forall i, j | 0 <= i < |head| && 0 <= j < |tail| ensures head[i] != tail[j] {
        assert cohort[i] == head[i] && cohort[|head| + j] == tail[j];
      }
    }
  }

  lemma SelectKeeps(l: Limits, w: Window, available: set<string>, keys: Places<string>, w': Window)
    requires WindowOk(l, w) && available <= keys.Keys && SelectsTo(l, w, available, keys, w')
    ensures WindowOk(l, w')
  {
    FilterMembers(w.cohort, Among(available));
  }

  lemma TruncateKeeps(l: Limits, w: Window, length: nat, prefill: bool)
    requires WindowOk(l, w)
    ensures WindowOk(l, Executed(w, prefill)) && WindowOk(l, Dropped(l, w)) && WindowOk(l, Retained(l, w, length))
  {
    assert Head(l, Head(l, w.cohort)) == Head(l, w.cohort) && Tail(l, Head(l, w.cohort)) == [];
  }

  /** A call that is active stays active while it is available: leaving calls only move it forward. */
  lemma {:induction false} StaysInHead(cohort: seq<string>, keep: string -> bool, i: nat)
    requires i < |cohort| && keep(cohort[i])
    ensures exists j :: 0 <= j <= i && j < |Filter(cohort, keep)| && Filter(cohort, keep)[j] == cohort[i]
  {
    var front := if keep(cohort[0]) then [cohort[0]] else [];
    var rest := Filter(cohort[1..], keep);
    assert Filter(cohort, keep) == front + rest;
    if i == 0 {
      assert (front + rest)[0] == cohort[0];
    } else {
      StaysInHead(cohort[1..], keep, i - 1);
      var j :| 0 <= j <= i - 1 && j < |rest| && rest[j] == cohort[1..][i - 1];
      assert (front + rest)[|front| + j] == cohort[i];
    }
  }

  lemma ActiveStays(l: Limits, w: Window, available: set<string>, keys: Places<string>, w': Window, x: string)
    requires WindowOk(l, w) && available <= keys.Keys && SelectsTo(l, w, available, keys, w') && !Boundary(w, available)
    requires x in w.active && x in available
    ensures x in w'.active
  {
    var head := Head(l, w.cohort);
    var i :| 0 <= i < |head| && head[i] == x;
    assert w.cohort[i] == x;
    StaysInHead(w.cohort, Among(available), i);
    var j :| 0 <= j <= i && j < |w'.cohort| && w'.cohort[j] == x;
    assert Head(l, w'.cohort)[j] == x;
  }

  // ---- Whole runs ------------------------------------------------------------------------

  /** What happens to the window, in any order: a selection with the keys after a refresh, an executed step, and the two
      cuts under memory pressure. */
  datatype Event =
    | Select(available: set<string>, keys: Places<string>)
    | Execute(prefill: bool)
    | DropReserve
    | Retain(length: nat)

  ghost predicate Plays(l: Limits, w: Window, e: Event, w': Window) {
    match e
    case Select(available, keys) => available <= keys.Keys && SelectsTo(l, w, available, keys, w')
    case Execute(prefill) => w' == Executed(w, prefill)
    case DropReserve => w' == Dropped(l, w)
    case Retain(length) => w' == Retained(l, w, length)
  }

  /** A run of events from the first to the last window of `ws`. */
  ghost predicate IsRun(l: Limits, ws: seq<Window>, es: seq<Event>) {
    |ws| == |es| + 1 && forall k :: 0 <= k < |es| ==> Plays(l, ws[k], es[k], ws[k + 1])
  }

  /** No selection of the run was a boundary. */
  ghost predicate FrozenRun(ws: seq<Window>, es: seq<Event>)
    requires |ws| == |es| + 1
  {
    forall k :: 0 <= k < |es| ==> Frozen(ws[k], es[k])
  }

  ghost predicate Frozen(w: Window, e: Event) { e.Select? ==> e.available != {} && !Boundary(w, e.available) }

  /** Who an event leaves in the window: the calls that are still available, or that stand before the cut. */
  function Spared(l: Limits, w: Window, e: Event): set<string> {
    match e
    case Select(available, _) => available
    case Execute(_) => Members(w.cohort)
    case DropReserve => Members(Head(l, w.cohort))
    case Retain(length) => Members(Cut(w.cohort, length))
  }

  /** The call never left, and was never cut off. */
  function Stays(l: Limits, ws: seq<Window>, es: seq<Event>): string -> bool
    requires |ws| == |es| + 1
  {
    x => forall k :: 0 <= k < |es| ==> x in Spared(l, ws[k], es[k])
  }

  function Decodes(es: seq<Event>): nat {
    if es == [] then 0 else Decodes(es[..|es| - 1]) + if es[|es| - 1] == Execute(false) then 1 else 0
  }

  lemma PlayKeeps(l: Limits, w: Window, e: Event, w': Window)
    requires WindowOk(l, w) && Plays(l, w, e, w')
    ensures WindowOk(l, w')
  {
    match e
    case Select(available, keys) =>
      SelectKeeps(l, w, available, keys, w');
    case Execute(prefill) =>
      TruncateKeeps(l, w, 0, prefill);
    case DropReserve =>
      TruncateKeeps(l, w, 0, true);
    case Retain(length) =>
      TruncateKeeps(l, w, length, true);
  }

  lemma {:induction false} RunOk(l: Limits, ws: seq<Window>, es: seq<Event>, k: nat)
    requires IsRun(l, ws, es) && WindowOk(l, ws[0]) && k < |ws|
    ensures WindowOk(l, ws[k])
  {
    hide WindowOk, Plays;
    if k > 0 {
      RunOk(l, ws, es, k - 1);
      PlayKeeps(l, ws[k - 1], es[k - 1], ws[k]);
    }
  }

  /** Between boundaries, over any number of events: the cohort is exactly what was spared of it, in its old order, so
      no new arrival enters; every decode step uses up one step of the window; and an active call stays active until it
      leaves or is cut off. */
  lemma {:induction false} FrozenWindow(l: Limits, ws: seq<Window>, es: seq<Event>)
    requires IsRun(l, ws, es) && FrozenRun(ws, es) && WindowOk(l, ws[0])
    ensures var first, last := ws[0], ws[|es|];
      && last.cohort == Filter(first.cohort, Stays(l, ws, es))
      && last.remaining == first.remaining - Min(first.remaining, Decodes(es))
      && forall x :: x in first.active && Stays(l, ws, es)(x) ==> x in last.active
  {
    if es == [] {
      FilterAll(ws[0].cohort, Stays(l, ws, es));
    } else {
      var n := |es| - 1;
      FrozenPrefix(l, ws, es, n);
      FrozenWindow(l, ws[..n + 1], es[..n]);
      RunOk(l, ws, es, n);
      FrozenStep(l, ws, es, n);
    }
  }

  lemma FrozenPrefix(l: Limits, ws: seq<Window>, es: seq<Event>, n: nat)
    requires IsRun(l, ws, es) && FrozenRun(ws, es) && n <= |es|
    ensures IsRun(l, ws[..n + 1], es[..n]) && FrozenRun(ws[..n + 1], es[..n])
  {
    hide Plays, Frozen;
    forall k | 0 <= k < n ensures Plays(l, ws[..n + 1][k], es[..n][k], ws[..n + 1][k + 1]) {
      assert Plays(l, ws[k], es[k], ws[k + 1]);
    }
  }

  lemma FrozenStep(l: Limits, ws: seq<Window>, es: seq<Event>, n: nat)
    requires n + 1 == |es| && |ws| == n + 2 && Plays(l, ws[n], es[n], ws[n + 1]) && WindowOk(l, ws[n])
      && Frozen(ws[n], es[n])
    requires ws[n].cohort == Filter(ws[0].cohort, Stays(l, ws[..n + 1], es[..n]))
    requires ws[n].remaining == ws[0].remaining - Min(ws[0].remaining, Decodes(es[..n]))
    requires forall x :: x in ws[0].active && Stays(l, ws[..n + 1], es[..n])(x) ==> x in ws[n].active
    ensures ws[n + 1].cohort == Filter(ws[0].cohort, Stays(l, ws, es))
    ensures ws[n + 1].remaining == ws[0].remaining - Min(ws[0].remaining, Decodes(es))
    ensures forall x :: x in ws[0].active && Stays(l, ws, es)(x) ==> x in ws[n + 1].active
  {
    hide Stays, Plays, Frozen, Spared, WindowOk, Filter;
    StaysNext(l, ws, es, n);
    EventSpares(l, ws[n], es[n], ws[n + 1]);
    FilterBoth(ws[0].cohort, Stays(l, ws[..n + 1], es[..n]), Among(Spared(l, ws[n], es[n])), Stays(l, ws, es));
  }

  /** One event inside a window. */
  lemma EventSpares(l: Limits, w: Window, e: Event, w': Window)
    requires WindowOk(l, w) && Plays(l, w, e, w') && Frozen(w, e)
    ensures w'.cohort == Filter(w.cohort, Among(Spared(l, w, e)))
    ensures w'.remaining == w.remaining - if e == Execute(false) then Min(w.remaining, 1) else 0
    ensures forall x :: x in w.active && x in Spared(l, w, e) ==> x in w'.active
  {
    match e
    case Select(available, keys) =>
      forall x | x in w.active && x in available ensures x in w'.active {
        ActiveStays(l, w, available, keys, w', x);
      }
    case Execute(_) =>
      FilterAll(w.cohort, Among(Members(w.cohort)));
    case DropReserve =>
      PrefixIsFilter(w.cohort, Head(l, w.cohort));
    case Retain(length) =>
      PrefixIsFilter(w.cohort, Cut(w.cohort, length));
      forall x | x in w.active && x in Members(Cut(w.cohort, length)) ensures x in w'.active {
        ActiveUncut(l, w.cohort, length, x);
      }
  }

  lemma ActiveUncut(l: Limits, cohort: seq<string>, length: nat, x: string)
    requires NoDup(cohort) && x in Head(l, cohort) && x in Cut(cohort, length)
    ensures x in Head(l, Cut(cohort, length))
  {
    var i :| 0 <= i < |Head(l, cohort)| && Head(l, cohort)[i] == x;
    var j :| 0 <= j < |Cut(cohort, length)| && Cut(cohort, length)[j] == x;
    assert cohort[i] == cohort[j];
    assert Head(l, Cut(cohort, length))[i] == x;
  }

  lemma PrefixIsFilter(s: seq<string>, front: seq<string>)
    requires NoDup(s) && front <= s
    ensures Filter(s, Among(Members(front))) == front
  {
    var back, keep := s[|front|..], Among(Members(front));
    assert s == front + back;
    forall i, j | 0 <= i < |front| && 0 <= j < |back| ensures front[i] != back[j] {
      assert s[i] == front[i] && s[|front| + j] == back[j];
    }
    FilterAppend(front, back, keep);
    FilterAll(front, keep);
    FilterNone(back, keep);
    assert front + [] == front;
  }

  lemma StaysNext(l: Limits, ws: seq<Window>, es: seq<Event>, n: nat)
    requires n + 1 == |es| && |ws| == n + 2
    ensures forall x :: Stays(l, ws, es)(x) <==> Stays(l, ws[..n + 1], es[..n])(x) && x in Spared(l, ws[n], es[n])
  {
    hide Spared;
    forall x ensures Stays(l, ws, es)(x) <==> Stays(l, ws[..n + 1], es[..n])(x) && x in Spared(l, ws[n], es[n]) {
      assert forall k :: 0 <= k < n ==> es[..n][k] == es[k] && ws[..n + 1][k] == ws[k];
    }
  }

  /** A selection, and no decode step since. */
  predicate Selected(es: seq<Event>) {
    es != [] && var last := es[|es| - 1]; last.Select? || (last != Execute(false) && Selected(es[..|es| - 1]))
  }

  /** Every decode step follows a selection of its own. */
  ghost predicate Paced(es: seq<Event>) { forall k :: 0 <= k < |es| && es[k] == Execute(false) ==> Selected(es[..k]) }

  lemma {:induction false} SelectedRemains(l: Limits, ws: seq<Window>, es: seq<Event>)
    requires IsRun(l, ws, es) && FrozenRun(ws, es) && WindowOk(l, ws[0]) && Selected(es)
    ensures ws[|es|].remaining > 0
  {
    var n := |es| - 1;
    RunOk(l, ws, es, n);
    assert Frozen(ws[n], es[n]);
    hide WindowOk, Plays, Frozen;
    EventSpares(l, ws[n], es[n], ws[n + 1]);
    if es[n].Select? {
      SelectRemains(l, ws[n], es[n], ws[n + 1]);
    } else {
      FrozenPrefix(l, ws, es, n);
      SelectedRemains(l, ws[..n + 1], es[..n]);
    }
  }

  lemma SelectRemains(l: Limits, w: Window, e: Event, w': Window)
    requires Plays(l, w, e, w') && Frozen(w, e) && e.Select?
    ensures w'.remaining == w.remaining > 0
  {
  }

  lemma {:induction false} DecodesUseSteps(l: Limits, ws: seq<Window>, es: seq<Event>)
    requires IsRun(l, ws, es) && FrozenRun(ws, es) && WindowOk(l, ws[0]) && Paced(es)
    ensures Decodes(es) <= ws[0].remaining
  {
    if es != [] {
      var n := |es| - 1;
      FrozenPrefix(l, ws, es, n);
      hide IsRun, FrozenRun, WindowOk, Selected, Stays;
      assert Paced(es[..n]) by { PacedPrefix(es, n); }
      DecodesUseSteps(l, ws[..n + 1], es[..n]);
      if es[n] == Execute(false) {
        SelectedRemains(l, ws[..n + 1], es[..n]);
        FrozenWindow(l, ws[..n + 1], es[..n]);
      }
    }
  }

  lemma PacedPrefix(es: seq<Event>, n: nat)
    requires Paced(es) && n <= |es|
    ensures Paced(es[..n])
  {
    hide Selected;
    forall k | 0 <= k < n && es[..n][k] == Execute(false) ensures Selected(es[..n][..k]) {
      assert es[..n][..k] == es[..k];
    }
  }

  /** At most one interval of decode steps passes between two refreshes, and after that many the next selection
      refreshes. */
  lemma DecodesBetweenRefreshes(l: Limits, ws: seq<Window>, es: seq<Event>)
    requires IsRun(l, ws, es) && FrozenRun(ws, es) && WindowOk(l, ws[0]) && Paced(es)
    ensures Decodes(es) <= l.interval
    ensures Decodes(es) == ws[0].remaining ==> forall available :: available != {} ==> Boundary(ws[|es|], available)
  {
    FrozenWindow(l, ws, es);
    DecodesUseSteps(l, ws, es);
  }

  /** A refresh takes as many calls as batch and reserve hold, or all there are: those with the least keys, in key
      order; the first of them are active, the others reserve, for a whole interval of decode steps. */
  lemma RefreshTakes(l: Limits, w: Window, available: set<string>, keys: Places<string>, w': Window)
    requires available <= keys.Keys && SelectsTo(l, w, available, keys, w') && available != {}
    requires w.remaining == 0 || forall x :: x in w.cohort ==> x !in available
    ensures NoDup(w'.cohort) && |w'.cohort| == Min(|available|, l.capacity + l.over)
    ensures forall x :: x in w'.cohort ==> x in available
    ensures forall i, j :: 0 <= i < j < |w'.cohort| ==> Before(keys[w'.cohort[i]], keys[w'.cohort[j]])
    ensures forall x, y :: x in w'.cohort && y in available && y !in w'.cohort ==> Before(keys[x], keys[y])
    ensures w'.remaining == l.interval
    ensures forall i :: 0 <= i < |w'.cohort| ==>
      (w'.cohort[i] in w'.active <==> i < l.capacity) && (w'.cohort[i] in w'.reserve <==> i >= l.capacity)
    ensures forall x :: x in w'.active || x in w'.reserve ==> x in w'.cohort
  {
    FilterMembers(w.cohort, Among(available));
    EmptyOrMember(Remaining(w, available));
    hide Filter;
    var cohort := w'.cohort;
    NoDupCard(cohort);
    var members := set x | x in cohort;
    SubsetCard(members, available);
    assert Members(cohort) == members;
    Parts(l, cohort);
    hide Sorted;
    forall i | 0 <= i < |cohort|
      ensures (cohort[i] in w'.active <==> i < l.capacity) && (cohort[i] in w'.reserve <==> i >= l.capacity) {
      Placed(l, cohort, i);
    }
  }

  lemma Placed(l: Limits, cohort: seq<string>, i: nat)
    requires NoDup(cohort) && i < |cohort|
    ensures cohort[i] in Members(Head(l, cohort)) <==> i < l.capacity
    ensures cohort[i] in Members(Tail(l, cohort)) <==> i >= l.capacity
  {
    Parts(l, cohort);
    if i >= l.capacity {
      assert Tail(l, cohort)[i - l.capacity] == cohort[i];
    } else {
      assert Head(l, cohort)[i] == cohort[i];
    }
  }

  /** A window lasts: after a refresh the next one comes once exactly `interval` decode steps were executed, or when
      nobody of the cohort is left. */
  lemma WindowLength(l: Limits, ws: seq<Window>, es: seq<Event>, available: set<string>)
    requires IsRun(l, ws, es) && WindowOk(l, ws[0]) && es != [] && es[0].Select? && !Frozen(ws[0], es[0])
    requires es[0].available != {} && FrozenRun(ws[1..], es[1..]) && available != {}
    ensures var last := ws[|es|];
      Boundary(last, available) <==>
        Decodes(es[1..]) >= l.interval || forall x :: x in last.cohort ==> x !in available
    ensures Paced(es[1..]) ==> Decodes(es[1..]) <= l.interval
  {
    var later, rest := ws[1..], es[1..];
    forall k | 0 <= k < |rest| ensures Plays(l, later[k], rest[k], later[k + 1]) {
      assert Plays(l, ws[k + 1], es[k + 1], ws[k + 2]);
    }
    assert Plays(l, ws[0], es[0], ws[1]);
    PlayKeeps(l, ws[0], es[0], ws[1]);
    FrozenWindow(l, later, rest);
    if Paced(rest) {
      DecodesUseSteps(l, later, rest);
    }
    assert later[|rest|] == ws[|es|];
    FilterMembers(ws[|es|].cohort, Among(available));
    EmptyOrMember(Remaining(ws[|es|], available));
  }

  // ---- The window object -------------------------------------------------------------------

  class SchedulingWindow {
    const limits: Limits
    var remaining: nat
    var cohort: seq<string>
    var active: set<string>
    var reserve: set<string>

    function State(): Window
      reads this
    {
      Window(remaining, cohort, active, reserve)
    }

    constructor (limits: Limits)
      ensures State() == Window(0, [], {}, {}) && WindowOk(limits, State()) && this.limits == limits
    {
      this.limits := limits;
      remaining, cohort, active, reserve := 0, [], {}, {};
    }

    /** `select`: `keys` are the controller's keys, read after its refresh at a boundary. The two results are the calls
        to run or prepare, and the reserve calls that only stay resident. */
    method Select(available: set<string>, resident: set<string>, keys: Places<string>, ghost counter: nat)
        returns (chosen: set<string>, held: set<string>)
      requires WindowOk(limits, State()) && available <= keys.Keys && Stamped(keys, counter)
      modifies this
      ensures SelectsTo(limits, old(State()), available, keys, State()) && WindowOk(limits, State())
      ensures chosen + held == Members(cohort) && chosen !! held
      ensures active <= chosen && held == reserve * resident
    {
      hide SelectsTo, WindowOk, Filter, LeastKeys, Stamped, Head, Tail;
      ghost var before := State();
      if available == {} {
        SelectNothing(limits, before, keys);
        cohort, active, reserve, remaining := [], {}, {}, 0;
        return {}, {};
      }
      var kept := Filter(cohort, Among(available));
      FilterMembers(cohort, Among(available));
      if remaining == 0 || kept == [] {
        kept := LeastOf(available, keys, limits.capacity + limits.over, counter);
        remaining := limits.interval;
      }
      Parts(limits, kept);
      SelectIs(limits, before, available, keys, kept);
      cohort, active, reserve := kept, Members(Head(limits, kept)), Members(Tail(limits, kept));
      chosen, held := active + (reserve - resident), reserve * resident;
    }

    method Execute(prefill: bool)
      requires WindowOk(limits, State())
      modifies this`remaining
      ensures State() == Executed(old(State()), prefill) && WindowOk(limits, State())
    {
      if !prefill {
        remaining := if remaining > 0 then remaining - 1 else 0;
      }
    }

    method DropReserve()
      requires WindowOk(limits, State())
      modifies this`cohort, this`reserve
      ensures State() == Dropped(limits, old(State())) && WindowOk(limits, State())
    {
      TruncateKeeps(limits, State(), 0, true);
      cohort, reserve := Head(limits, cohort), {};
    }

    method RetainPrefix(length: nat)
      requires WindowOk(limits, State())
      modifies this`cohort, this`active, this`reserve
      ensures State() == Retained(limits, old(State()), length) && WindowOk(limits, State())
    {
      TruncateKeeps(limits, State(), length, true);
      cohort := if length <= |cohort| then cohort[..length] else cohort;
      active := Members(Head(limits, cohort));
      reserve := Members(Tail(limits, cohort));
    }
  }

  lemma SelectNothing(l: Limits, w: Window, keys: Places<string>)
    ensures SelectsTo(l, w, {}, keys, Window(0, [], {}, {})) && WindowOk(l, Window(0, [], {}, {}))
  {
  }

  lemma SelectIs(l: Limits, w: Window, available: set<string>, keys: Places<string>, kept: seq<string>)
    requires WindowOk(l, w) && available != {} && available <= keys.Keys
    requires if w.remaining == 0
      || Remaining(w, available) == [] then LeastKeys(kept, available, keys, l.capacity + l.over)
      else kept == Remaining(w, available)
    ensures var w' := Framed(l, kept, if w.remaining == 0 || Remaining(w, available) == [] then l.interval
      else w.remaining);
      SelectsTo(l, w, available, keys, w') && WindowOk(l, w')
  {
    var w' := Framed(l, kept, if w.remaining == 0 || Remaining(w, available) == [] then l.interval else w.remaining);
    SelectKeeps(l, w, available, keys, w');
  }

  /** `sorted(available, key)[:n]`. */
  method LeastOf(available: set<string>, keys: Places<string>, n: nat, ghost counter: nat) returns (least: seq<string>)
    requires available <= keys.Keys && Stamped(keys, counter)
    ensures LeastKeys(least, available, keys, n)
  {
    var ids: seq<string> := [];
    var todo := available;
    while todo != {}
      invariant todo <= available && NoDup(ids) && forall x :: x in ids <==> x in available && x !in todo
      decreases |todo|
    {
      var x :| x in todo;
      ids, todo := ids + [x], todo - {x};
    }
    var line := Sort(ids, keys);
    SortSorted(ids, keys, counter);
    SortedNoDup(line, keys);
    least := if |line| <= n then line else line[..n];
    LeastIs(line, least, available, keys, n);
  }

  lemma LeastIs(line: seq<string>, least: seq<string>, available: set<string>, keys: Places<string>, n: nat)
    requires available <= keys.Keys && NoDup(line) && (forall x :: x in line <==> x in available) && Sorted(line, keys)
    requires least == if |line| <= n then line else line[..n]
    ensures LeastKeys(least, available, keys, n)
  {
    forall j | 0 <= j < |least| ensures line[j] in least {
      assert line[j] == least[j];
    }
    forall x, y | x in least && y in available && y !in least ensures Before(keys[x], keys[y]) {
      var i :| 0 <= i < |least| && least[i] == x;
      var j :| 0 <= j < |line| && line[j] == y;
      assert j >= |least|;
    }
    if |line| <= n {
      assert Members(least) == available;
    }
  }
}
