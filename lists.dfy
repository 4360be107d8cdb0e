/**
 * Sequence operations behind the components' array expressions:
 * `filter`, `includes`-then-remove-or-append toggling, and the stable
 * `sort` of `[...xs].sort(compare)`.
 */
module Lists {

  /** `a` can be obtained from `b` by deleting elements (order preserved). */
  predicate IsSubsequence<T(==)>(a: seq<T>, b: seq<T>)
    decreases |b|
  {
    if a == [] then true
    else if b == [] then false
    else if a[0] == b[0] then IsSubsequence(a[1..], b[1..])
    else IsSubsequence(a, b[1..])
  }

  /** Appending to the longer sequence keeps a subsequence. */
  lemma {:induction false} SubsequenceExtend<T>(a: seq<T>, b: seq<T>, x: T)
    requires IsSubsequence(a, b)
    ensures IsSubsequence(a, b + [x])
    decreases |b|
  {
    if a != [] && b != [] {
      assert (b + [x])[1..] == b[1..] + [x];
      if a[0] == b[0] {
        SubsequenceExtend(a[1..], b[1..], x);
      } else {
        SubsequenceExtend(a, b[1..], x);
      }
    }
  }

  /** A single element is a subsequence of anything ending with it. */
  lemma {:induction false} SubsequenceLast<T>(b: seq<T>, x: T)
    ensures IsSubsequence([x], b + [x])
    decreases |b|
  {
    if b != [] && b[0] != x {
      assert (b + [x])[1..] == b[1..] + [x];
      SubsequenceLast(b[1..], x);
    }
  }

  /** Appending the same element to both sides keeps a subsequence. */
  lemma {:induction false} SubsequenceAppend<T>(a: seq<T>, b: seq<T>, x: T)
    requires IsSubsequence(a, b)
    ensures IsSubsequence(a + [x], b + [x])
    decreases |b|
  {
    if a == [] {
      SubsequenceLast(b, x);
      assert a + [x] == [x];
    } else if b != [] {
      assert (b + [x])[1..] == b[1..] + [x];
      assert (a + [x])[0] == a[0] && (a + [x])[1..] == a[1..] + [x];
      if a[0] == b[0] {
        SubsequenceAppend(a[1..], b[1..], x);
      } else {
        SubsequenceAppend(a, b[1..], x);
      }
    }
  }

  /** Dropping the first element of a subsequence keeps it a subsequence. */
  lemma {:induction false} SubsequenceTail<T>(a: seq<T>, b: seq<T>)
    requires a != [] && IsSubsequence(a, b)
    ensures IsSubsequence(a[1..], b)
    decreases |b|, 0
  {
    if a[0] == b[0] {
      SubsequencePrepend(a[1..], b[1..], b[0]);
      assert [b[0]] + b[1..] == b;
    } else {
      SubsequenceTail(a, b[1..]);
      SubsequencePrepend(a[1..], b[1..], b[0]);
      assert [b[0]] + b[1..] == b;
    }
  }

  /** Putting an element in front of the longer sequence keeps a subsequence. */
  lemma {:induction false} SubsequencePrepend<T>(a: seq<T>, b: seq<T>, x: T)
    requires IsSubsequence(a, b)
    ensures IsSubsequence(a, [x] + b)
    decreases |b|, 1
  {
    assert ([x] + b)[1..] == b;
    if a != [] && a[0] == x {
      SubsequenceTail(a, b);
    }
  }

  /** `s.filter(keep)`. */
  function Filter<T(!new)>(s: seq<T>, keep: T -> bool): (r: seq<T>)
    ensures forall i :: 0 <= i < |r| ==> keep(r[i])
    ensures forall x :: multiset(r)[x] == if keep(x) then multiset(s)[x] else 0
    ensures IsSubsequence(r, s)
  {
    if s == [] then []
    else
      var rest := Filter(s[1..], keep);
      assert s == [s[0]] + s[1..];
      if keep(s[0]) then
        assert ([s[0]] + rest)[1..] == rest;
        [s[0]] + rest
      else
        assert rest == [] || rest[0] != s[0];
        rest
  }

  /** A filter that keeps everything returns its input. */
  lemma {:induction false} FilterAll<T(!new)>(s: seq<T>, keep: T -> bool)
    requires forall i :: 0 <= i < |s| ==> keep(s[i])
    ensures Filter(s, keep) == s
  {
    if s != [] {
      FilterAll(s[1..], keep);
    }
  }

  /** `s.filter(y => y !== x)`. */
  function RemoveAll<T(==,!new)>(s: seq<T>, x: T): (r: seq<T>)
    ensures x !in r
    ensures forall y :: y != x ==> multiset(r)[y] == multiset(s)[y]
    ensures forall y :: y in r <==> y in s && y != x
    ensures IsSubsequence(r, s)
    ensures NoDuplicates(s) ==> NoDuplicates(r)
  {
    var keep := y => y != x;
    FilterNoDuplicates(s, keep);
    var r := Filter(s, keep);
    assert forall y :: y in r <==> y in s && y != x by {
      forall y ensures y in r <==> y in s && y != x {
        assert y in r <==> multiset(r)[y] > 0;
        assert y in s <==> multiset(s)[y] > 0;
      }
    }
    r
  }

  /** Removing an element that is absent changes nothing. */
  lemma RemoveAbsent<T(!new)>(s: seq<T>, x: T)
    requires x !in s
    ensures RemoveAll(s, x) == s
  {
    FilterAll(s, y => y != x);
  }

  /** `s.includes(x) ? s.filter(y => y !== x) : [...s, x]`. */
  function Toggle<T(==,!new)>(s: seq<T>, x: T): (r: seq<T>)
    ensures x in r <==> x !in s
    ensures forall y :: y != x ==> (y in r <==> y in s)
    ensures x !in s ==> r == s + [x]
  {
    if x in s then RemoveAll(s, x) else s + [x]
  }

  /** Toggling an absent element twice restores the sequence exactly. */
  lemma ToggleTwice<T(!new)>(s: seq<T>, x: T)
    requires x !in s
    ensures Toggle(Toggle(s, x), x) == s
  {
    RemoveAbsent(s, x);
    assert Filter(s + [x], y => y != x) == Filter(s, y => y != x) by {
      FilterAppendDropped(s, x, y => y != x);
    }
  }

  lemma {:induction false} FilterAppendDropped<T(!new)>(s: seq<T>, x: T, keep: T -> bool)
    requires !keep(x)
    ensures Filter(s + [x], keep) == Filter(s, keep)
  {
    if s == [] {
      assert [x][1..] == [];
    } else {
      assert (s + [x])[1..] == s[1..] + [x];
      FilterAppendDropped(s[1..], x, keep);
    }
  }

  /** `s.indexOf(x)` for a present `x`: where it first occurs. */
  function FirstIndex<T(==)>(s: seq<T>, x: T): (i: nat)
    requires x in s
    ensures i < |s| && s[i] == x
    ensures forall k :: 0 <= k < i ==> s[k] != x
  {
    if s[0] == x then 0
    else
      assert x in s[1..];
      1 + FirstIndex(s[1..], x)
  }

  /** Appending an element moves no earlier first occurrence. */
  lemma FirstIndexAppend<T>(s: seq<T>, y: T, x: T)
    requires x in s
    ensures FirstIndex(s + [y], x) == FirstIndex(s, x)
  {
    var i, j := FirstIndex(s, x), FirstIndex(s + [y], x);
    assert (s + [y])[i] == x;
  }

  /** An element appended to a sequence without it first occurs at the end. */
  lemma FirstIndexLast<T>(s: seq<T>, x: T)
    requires x !in s
    ensures FirstIndex(s + [x], x) == |s|
  {
    assert (s + [x])[|s|] == x;
  }

  /** `k` lists the members of `s` in the order they first occur in `s`. */
  ghost predicate FirstOccurrenceOrder<T(!new)>(k: seq<T>, s: seq<T>) {
    && (forall x :: x in k <==> x in s)
    && (forall i, j :: 0 <= i < j < |k| ==> FirstIndex(s, k[i]) < FirstIndex(s, k[j]))
  }

  /** Extending `s` by `y` extends that order by `y` when `y` is new and keeps it otherwise. */
  lemma FirstOccurrenceExtend<T(!new)>(s: seq<T>, y: T, k: seq<T>)
    requires FirstOccurrenceOrder(k, s)
    ensures FirstOccurrenceOrder(if y in s then k else k + [y], s + [y])
  {
    var t := s + [y];
    if y in s {
      forall i, j | 0 <= i < j < |k|
        ensures FirstIndex(t, k[i]) < FirstIndex(t, k[j])
      {
        FirstIndexAppend(s, y, k[i]);
        FirstIndexAppend(s, y, k[j]);
      }
    } else {
      var ks := k + [y];
      FirstIndexLast(s, y);
      forall i, j | 0 <= i < j < |ks|
        ensures FirstIndex(t, ks[i]) < FirstIndex(t, ks[j])
      {
        assert ks[i] == k[i];
        FirstIndexAppend(s, y, k[i]);
        if j < |k| {
          assert ks[j] == k[j];
          FirstIndexAppend(s, y, k[j]);
        }
      }
    }
  }

  /** No element occurs twice. */
  predicate NoDuplicates<T(==)>(s: seq<T>) {
    forall i, j :: 0 <= i < j < |s| ==> s[i] != s[j]
  }

  lemma {:induction false} FilterNoDuplicates<T(!new)>(s: seq<T>, keep: T -> bool)
    ensures NoDuplicates(s) ==> NoDuplicates(Filter(s, keep))
  {
    if s != [] && NoDuplicates(s) {
      var rest := Filter(s[1..], keep);
      assert NoDuplicates(s[1..]) by {
        forall i, j | 0 <= i < j < |s[1..]| ensures s[1..][i] != s[1..][j] {
          assert s[1..][i] == s[i + 1] && s[1..][j] == s[j + 1];
        }
      }
      FilterNoDuplicates(s[1..], keep);
      if keep(s[0]) {
        assert s[0] !in s[1..] by {
          forall k | 0 <= k < |s[1..]| ensures s[1..][k] != s[0] {
            assert s[1..][k] == s[k + 1];
          }
        }
        assert multiset(rest)[s[0]] == 0;
        ConsNoDuplicates(s[0], rest);
      }
    }
  }

  /** Putting in front an element the rest lacks keeps a sequence duplicate-free. */
  lemma ConsNoDuplicates<T>(x: T, s: seq<T>)
    requires x !in s && NoDuplicates(s)
    ensures NoDuplicates([x] + s)
  {
    var t := [x] + s;
    forall i, j | 0 <= i < j < |t| ensures t[i] != t[j] {
      assert t[j] == s[j - 1];
      if i > 0 {
        assert t[i] == s[i - 1];
      }
    }
  }

  /** Toggling keeps a duplicate-free sequence duplicate-free. */
  lemma ToggleNoDuplicates<T(!new)>(s: seq<T>, x: T)
    ensures NoDuplicates(s) ==> NoDuplicates(Toggle(s, x))
  {
  }

  // ---------------------------------------------------------------- sorting

  /** `le(a, b)`: the comparator puts `a` no later than `b` (it returns a value <= 0). */
  ghost predicate TotalPreorder<T(!new)>(le: (T, T) -> bool) {
    && (forall a, b :: le(a, b) || le(b, a))
    && (forall a, b, c :: le(a, b) && le(b, c) ==> le(a, c))
  }

  ghost predicate SortedBy<T>(s: seq<T>, le: (T, T) -> bool) {
    forall i, j :: 0 <= i < j < |s| ==> le(s[i], s[j])
  }

  /** Inserts `x` in front of the first element it may precede. */
  function Insert<T>(x: T, s: seq<T>, le: (T, T) -> bool): (r: seq<T>)
    ensures |r| == |s| + 1
    ensures multiset(r) == multiset(s) + multiset{x}
  {
    if s == [] || le(x, s[0]) then [x] + s
    else
      assert s == [s[0]] + s[1..];
      [s[0]] + Insert(x, s[1..], le)
  }

  /**
   * `[...s].sort(compare)` for a comparator whose "no later than" relation is
   * `le`. JavaScript's sort is stable; so is this insertion sort, and for a
   * consistent comparator a stable sort has exactly one possible result.
   */
  function SortBy<T>(s: seq<T>, le: (T, T) -> bool): (r: seq<T>)
    ensures |r| == |s|
    ensures multiset(r) == multiset(s)
  {
    if s == [] then []
    else
      assert s == [s[0]] + s[1..];
      Insert(s[0], SortBy(s[1..], le), le)
  }

  lemma {:induction false} InsertSorted<T(!new)>(x: T, s: seq<T>, le: (T, T) -> bool)
    requires TotalPreorder(le)
    requires SortedBy(s, le)
    ensures SortedBy(Insert(x, s, le), le)
  {
    if s != [] && !le(x, s[0]) {
      InsertSorted(x, s[1..], le);
      var r := Insert(x, s, le);
      var t := Insert(x, s[1..], le);
      assert r == [s[0]] + t;
      forall j | 1 <= j < |r| ensures le(s[0], r[j]) {
        assert r[j] in multiset(t);
        assert r[j] in multiset(s[1..]) + multiset{x};
        if r[j] != x || r[j] in multiset(s[1..]) {
          if r[j] in multiset(s[1..]) {
            var k :| 0 <= k < |s[1..]| && s[1..][k] == r[j];
            assert s[k + 1] == r[j];
          }
        }
      }
    }
  }

  /** With a consistent comparator the result is in order. */
  lemma {:induction false} SortSorted<T(!new)>(s: seq<T>, le: (T, T) -> bool)
    requires TotalPreorder(le)
    ensures SortedBy(SortBy(s, le), le)
  {
    if s != [] {
      SortSorted(s[1..], le);
      InsertSorted(s[0], SortBy(s[1..], le), le);
    }
  }

  /** The elements of `s` the comparator ties with `z` (it returns 0 both ways), in their order in `s`. */
  function TiedWith<T>(s: seq<T>, le: (T, T) -> bool, z: T): seq<T> {
    if s == [] then []
    else (if le(s[0], z) && le(z, s[0]) then [s[0]] else []) + TiedWith(s[1..], le, z)
  }

  /** Inserting `x` puts it ahead of every element it ties with. */
  lemma {:induction false} InsertTies<T(!new)>(x: T, s: seq<T>, le: (T, T) -> bool, z: T)
    requires TotalPreorder(le)
    ensures TiedWith(Insert(x, s, le), le, z)
            == (if le(x, z) && le(z, x) then [x] else []) + TiedWith(s, le, z)
  {
    if s == [] || le(x, s[0]) {
      assert ([x] + s)[1..] == s;
    } else {
      var t := Insert(x, s[1..], le);
      var r := [s[0]] + t;
      assert r[1..] == t;
      var tx := if le(x, z) && le(z, x) then [x] else [];
      var ts := if le(s[0], z) && le(z, s[0]) then [s[0]] else [];
      InsertTies(x, s[1..], le, z);
      assert TiedWith(r, le, z) == ts + (tx + TiedWith(s[1..], le, z));
      assert TiedWith(s, le, z) == ts + TiedWith(s[1..], le, z);
      // x and s[0] cannot both tie with z: by transitivity x would tie with s[0].
      if tx != [] && ts != [] {
        assert false;
      }
    }
  }

  /**
   * The sort is stable: the elements the comparator ties with any `z` come
   * out in the order they went in.
   */
  lemma {:induction false} SortStable<T(!new)>(s: seq<T>, le: (T, T) -> bool, z: T)
    requires TotalPreorder(le)
    ensures TiedWith(SortBy(s, le), le, z) == TiedWith(s, le, z)
  {
    if s != [] {
      SortStable(s[1..], le, z);
      InsertTies(s[0], SortBy(s[1..], le), le, z);
    }
  }

  /** A comparator that always answers 0 (`return 0`) leaves the order unchanged. */
  lemma {:induction false} SortUnchanged<T(!new)>(s: seq<T>, le: (T, T) -> bool)
    ensures (forall a, b :: le(a, b)) ==> SortBy(s, le) == s
  {
    if s != [] && forall a, b :: le(a, b) {
      SortUnchanged(s[1..], le);
    }
  }
}
