/** Facts about sequences that several modules share. */
module Sequences {

  datatype Option<+T> = None | Some(value: T)

  function Min(a: int, b: int): int { if a <= b then a else b }

  function Max(a: int, b: int): int { if a <= b then b else a }

  ghost predicate NoDup<T>(s: seq<T>) {
    forall i, j :: 0 <= i < j < |s| ==> s[i] != s[j]
  }

  /** Python's `list.remove` / `deque.remove`: drops the first occurrence, if any. */
  function Without<T(==)>(s: seq<T>, x: T): (r: seq<T>)
  {
    if s == [] then [] else if s[0] == x then s[1..] else [s[0]] + Without(s[1..], x)
  }

  /** A list comprehension with a guard. */
  function Filter<T>(s: seq<T>, keep: T -> bool): (r: seq<T>)
  {
    if s == [] then []
    else (if keep(s[0]) then [s[0]] else []) + Filter(s[1..], keep)
  }

  function Sum(s: seq<int>): int
  {
    if s == [] then 0 else s[0] + Sum(s[1..])
  }

  lemma AppendNone<T>(s: seq<T>)
    ensures [] + s == s
  {
  }

  lemma AppendTail<T>(a: seq<T>, b: seq<T>)
    requires a != []
    ensures (a + b)[0] == a[0] && (a + b)[1..] == a[1..] + b
  {
  }

  lemma AppendAssociates<T>(a: seq<T>, b: seq<T>, c: seq<T>)
    ensures a + (b + c) == a + b + c
  {
  }

  lemma FilterUnfold<T>(s: seq<T>, keep: T -> bool)
    ensures Filter(s, keep) == if s == [] then [] else (if keep(s[0]) then [s[0]] else []) + Filter(s[1..], keep)
  {
  }

  lemma {:induction false} FilterAppend<T>(a: seq<T>, b: seq<T>, keep: T -> bool)
    ensures Filter(a + b, keep) == Filter(a, keep) + Filter(b, keep)
  {
    hide Filter;
    FilterUnfold(a, keep);
    if a == [] {
      AppendNone(b);
      AppendNone(Filter(b, keep));
    } else {
      FilterUnfold(a + b, keep);
      AppendTail(a, b);
      FilterAppend(a[1..], b, keep);
      AppendAssociates(if keep(a[0]) then [a[0]] else [], Filter(a[1..], keep), Filter(b, keep));
    }
  }

  lemma {:induction false} FilterMembers<T>(s: seq<T>, keep: T -> bool)
    ensures forall x :: x in Filter(s, keep) <==> x in s && keep(x)
    ensures |Filter(s, keep)| <= |s|
    ensures NoDup(s) ==> NoDup(Filter(s, keep))
  {
    if s != [] {
      FilterMembers(s[1..], keep);
      var rest := Filter(s[1..], keep);
      assert forall x :: x in s <==> x == s[0] || x in s[1..];
      if NoDup(s) {
        assert s[0] !in s[1..];
        assert NoDup(rest);
      }
    }
  }

  lemma {:induction false} FilterSame<T>(s: seq<T>, keep: T -> bool, keep': T -> bool)
    requires forall x :: x in s ==> keep(x) == keep'(x)
    ensures Filter(s, keep) == Filter(s, keep')
  {
    if s != [] {
      assert s[0] in s;
      FilterSame(s[1..], keep, keep');
    }
  }

  lemma {:induction false} FilterAll<T>(s: seq<T>, keep: T -> bool)
    requires forall x :: x in s ==> keep(x)
    ensures Filter(s, keep) == s
  {
    if s != [] {
      assert s[0] in s;
      FilterAll(s[1..], keep);
    }
  }

  lemma {:induction false} FilterNone<T>(s: seq<T>, keep: T -> bool)
    requires forall x :: x in s ==> !keep(x)
    ensures Filter(s, keep) == []
  {
    if s != [] {
      assert s[0] in s;
      FilterNone(s[1..], keep);
    }
  }

  /** Removing from a duplicate-free list is filtering the element out. */
  lemma {:induction false} WithoutIsFilter<T>(s: seq<T>, x: T)
    requires NoDup(s)
    ensures Without(s, x) == Filter(s, y => y != x)
  {
    if s != [] {
      if s[0] == x {
        FilterAll(s[1..], y => y != x);
      } else {
        WithoutIsFilter(s[1..], x);
      }
    }
  }

  lemma {:induction false} FilterBoth<T>(s: seq<T>, p: T -> bool, q: T -> bool, r: T -> bool)
    requires forall x :: x in s ==> (r(x) <==> p(x) && q(x))
    ensures Filter(Filter(s, p), q) == Filter(s, r)
  {
    if s != [] {
      assert s[0] in s && forall x :: x in s[1..] ==> x in s;
      FilterBoth(s[1..], p, q, r);
      FilterAppend(if p(s[0]) then [s[0]] else [], Filter(s[1..], p), q);
    }
  }

  /** `x` stands somewhere before `y` in the list. */
  ghost predicate Precedes<T(!new)>(s: seq<T>, x: T, y: T) {
    exists a, b :: 0 <= a < b < |s| && s[a] == x && s[b] == y
  }

  lemma PrecedesLater<T(!new)>(s: seq<T>, x: T, y: T)
    requires s != [] && (Precedes(s[1..], x, y) || (s[0] == x && y in s[1..]))
    ensures Precedes(s, x, y)
  {
    if Precedes(s[1..], x, y) {
      var a, b :| 0 <= a < b < |s[1..]| && s[1..][a] == x && s[1..][b] == y;
      assert s[a + 1] == x && s[b + 1] == y;
    } else {
      var b :| 0 <= b < |s[1..]| && s[1..][b] == y;
      assert s[0] == x && s[b + 1] == y;
    }
  }

  /** Filtering keeps the order. */
  lemma {:induction false} FilterPrecedes<T(!new)>(s: seq<T>, keep: T -> bool, i: nat, j: nat)
    requires i < j < |Filter(s, keep)|
    ensures Precedes(s, Filter(s, keep)[i], Filter(s, keep)[j])
  {
    hide Precedes;
    var whole, rest := Filter(s, keep), Filter(s[1..], keep);
    FilterUnfold(s, keep);
    FilterMembers(s[1..], keep);
    hide Filter;
    var shift := if keep(s[0]) then 1 else 0;
    assert |whole| == shift + |rest| && whole[j] == rest[j - shift] && rest[j - shift] in rest;
    if i < shift {
      assert whole[i] == s[0];
    } else {
      assert whole[i] == rest[i - shift];
      FilterPrecedes(s[1..], keep, i - shift, j - shift);
    }
    PrecedesLater(s, whole[i], whole[j]);
  }

  /** A duplicate-free list is as long as its set of elements is large. */
  lemma {:induction false} NoDupCard<T>(s: seq<T>)
    requires NoDup(s)
    ensures |set x | x in s| == |s|
  {
    if s == [] {
      assert (set x | x in s) == {};
    } else {
      NoDupCard(s[1..]);
      assert (set x | x in s) == {s[0]} + (set x | x in s[1..]);
      assert s[0] !in s[1..];
    }
  }

  /** Two duplicate-free lists with the same elements have the same length. */
  lemma NoDupSameLength<T>(s: seq<T>, t: seq<T>)
    requires NoDup(s) && NoDup(t)
    requires forall x :: x in s <==> x in t
    ensures |s| == |t|
  {
    NoDupCard(s);
    NoDupCard(t);
    assert (set x | x in s) == (set x | x in t);
  }

  lemma {:induction false} SumMonotone(s: seq<int>, t: seq<int>)
    requires |s| == |t|
    requires forall i :: 0 <= i < |s| ==> s[i] <= t[i]
    ensures Sum(s) <= Sum(t)
    ensures (exists i :: 0 <= i < |s| && s[i] < t[i]) ==> Sum(s) < Sum(t)
  {
    if s != [] {
      SumMonotone(s[1..], t[1..]);
      if exists i :: 0 <= i < |s| && s[i] < t[i] {
        var i :| 0 <= i < |s| && s[i] < t[i];
        if i > 0 {
          assert s[1..][i - 1] < t[1..][i - 1];
        }
      }
    }
  }

  lemma EmptyOrMember<T>(s: seq<T>)
    ensures s == [] || exists x :: x in s
  {
    if s != [] {
      assert s[0] in s;
    }
  }

  /** A duplicate-free list drawn from another is no longer than it. */
  lemma NoDupSubLength<T>(s: seq<T>, t: seq<T>)
    requires NoDup(s) && NoDup(t)
    requires forall x :: x in s ==> x in t
    ensures |s| <= |t|
  {
    NoDupCard(s);
    NoDupCard(t);
    SubsetCard(set x | x in s, set x | x in t);
  }

  lemma SubsetCard<T>(a: set<T>, b: set<T>)
    requires a <= b
    ensures |a| <= |b|
  {
    assert b == a + (b - a);
  }

  lemma {:induction false} SumUpdate(s: seq<int>, i: nat, v: int)
    requires i < |s|
    ensures Sum(s[i := v]) == Sum(s) - s[i] + v
  {
    if i == 0 {
      assert s[0 := v][1..] == s[1..];
    } else {
      SumUpdate(s[1..], i - 1, v);
      assert s[i := v][1..] == s[1..][i - 1 := v];
    }
  }

  lemma TimesMore(n: nat, c: int)
    ensures (n + 1) * c == n * c + c
  {
  }

  /** Raising the entries of a duplicate-free index list by `c` raises the sum by that many `c`. */
  lemma {:induction false} SumRaise(s: seq<int>, t: seq<int>, ids: seq<nat>, c: int)
    requires |s| == |t| && NoDup(ids)
    requires forall i :: i in ids ==> i < |s|
    requires forall i :: 0 <= i < |s| ==> t[i] <= s[i] + if i in ids then c else 0
    ensures Sum(t) <= Sum(s) + |ids| * c
    decreases |ids|
  {
    if ids == [] {
      SumMonotone(t, s);
    } else {
      var i, rest := ids[0], ids[1..];
      assert i in ids && forall j :: j in ids <==> j == i || j in rest;
      hide Sum;
      SumRaise(s[i := s[i] + c], t, rest, c);
      SumUpdate(s, i, s[i] + c);
      TimesMore(|rest|, c);
    }
  }

  lemma {:induction false} SumNonNegative(s: seq<int>)
    requires forall i :: 0 <= i < |s| ==> s[i] >= 0
    ensures Sum(s) >= 0
    ensures forall i :: 0 <= i < |s| ==> s[i] <= Sum(s)
  {
    if s != [] {
      SumNonNegative(s[1..]);
      assert forall i :: 0 < i < |s| ==> s[i] == s[1..][i - 1];
    }
  }

  lemma {:induction false} SumAdd(s: seq<int>, t: seq<int>, r: seq<int>)
    requires |s| == |t| == |r| && forall i :: 0 <= i < |s| ==> r[i] == s[i] + t[i]
    ensures Sum(r) == Sum(s) + Sum(t)
  {
    if s != [] {
      SumAdd(s[1..], t[1..], r[1..]);
    }
  }

  lemma {:induction false} SumZero(s: seq<int>)
    requires forall i :: 0 <= i < |s| ==> s[i] == 0
    ensures Sum(s) == 0
  {
    if s != [] {
      SumZero(s[1..]);
    }
  }

  /** Lowering the entries of a duplicate-free index list by one lowers the sum by its length. */
  lemma {:induction false} SumLower(s: seq<int>, t: seq<int>, ids: seq<nat>)
    requires |s| == |t| && NoDup(ids)
    requires forall i :: i in ids ==> i < |s|
    requires forall i :: 0 <= i < |s| ==> t[i] == s[i] - if i in ids then 1 else 0
    ensures Sum(t) == Sum(s) - |ids|
    decreases |ids|
  {
    if ids == [] {
      assert t == s;
    } else {
      var i := ids[0];
      assert i in ids && forall j :: j in ids <==> j == i || j in ids[1..];
      SumLower(s[i := s[i] - 1], t, ids[1..]);
      SumUpdate(s, i, s[i] - 1);
    }
  }

  lemma TakeMore<T>(s: seq<T>, i: nat)
    requires i < |s|
    ensures s[..i + 1] == s[..i] + [s[i]]
  {
  }

  lemma TakenAt<T>(s: seq<T>, j: nat, k: nat)
    requires k < |s| && j <= |s|
    ensures k < j ==> s[k] in s[..j]
  {
    if k < j {
      assert s[..j][k] == s[k];
    }
  }

  lemma TakeAll<T>(s: seq<T>)
    ensures s[..|s|] == s
  {
  }

  /** Popping the last element of a duplicate-free list. */
  lemma PopLast<T>(s: seq<T>)
    requires NoDup(s) && s != []
    ensures var last, rest := s[|s| - 1], s[..|s| - 1];
      last in s && last !in rest && NoDup(rest) && (forall x :: x in rest <==> x in s && x != last)
  {
    TakeMore(s, |s| - 1);
    TakeAll(s);
  }

  /** The elements of a set, in some order. */
  ghost function SetToSeq<T(!new)>(s: set<T>): (r: seq<T>)
    ensures NoDup(r) && forall x :: x in r <==> x in s
  {
    if s == {} then [] else
      var x :| x in s;
      var rest := SetToSeq(s - {x});
      rest + [x]
  }
}
