/**
 * The collection operations the app's Swift code relies on: `filter`,
 * a stable `sorted(by:)` and `prefix`, with the facts the rest of the
 * model needs about them.
 */
module Collections {
  import opened Wrappers

  /** `s.filter(keep)`: the elements of `s` that satisfy `keep`, in order. */
  function Filter<T(!new)>(s: seq<T>, keep: T -> bool): (r: seq<T>)
    ensures |r| <= |s|
    ensures forall x :: multiset(r)[x] == if keep(x) then multiset(s)[x] else 0
    ensures forall x :: x in r <==> x in s && keep(x)
    ensures forall i :: 0 <= i < |r| ==> keep(r[i])
  {
    if s == [] then []
    else
      assert s == [s[0]] + s[1..];
      (if keep(s[0]) then [s[0]] else []) + Filter(s[1..], keep)
  }

  /** Filtering distributes over concatenation. */
  lemma {:induction false} FilterAppend<T(!new)>(a: seq<T>, b: seq<T>, keep: T -> bool)
    ensures Filter(a + b, keep) == Filter(a, keep) + Filter(b, keep)
  {
    if a == [] {
      assert a + b == b;
    } else {
      assert (a + b)[1..] == a[1..] + b;
      FilterAppend(a[1..], b, keep);
    }
  }

  /** Filtering the first `n` elements gives a prefix of filtering them all. */
  lemma FilterPrefix<T(!new)>(s: seq<T>, n: nat, keep: T -> bool)
    requires n <= |s|
    ensures Filter(s[..n], keep) <= Filter(s, keep)
  {
    assert s == s[..n] + s[n..];
    FilterAppend(s[..n], s[n..], keep);
  }

  /** A filter that every element passes keeps the sequence as it is. */
  lemma {:induction false} FilterKeepsAll<T(!new)>(s: seq<T>, keep: T -> bool)
    requires forall i :: 0 <= i < |s| ==> keep(s[i])
    ensures Filter(s, keep) == s
  {
    if s != [] {
      FilterKeepsAll(s[1..], keep);
    }
  }

  /** Splitting by a predicate: what passes plus what fails is everything. */
  lemma {:induction false} FilterSplitCount<T(!new)>(s: seq<T>, keep: T -> bool, drop: T -> bool)
    requires forall x :: drop(x) == !keep(x)
    ensures |Filter(s, keep)| + |Filter(s, drop)| == |s|
  {
    if s != [] {
      FilterSplitCount(s[1..], keep, drop);
    }
  }

  /**
   * Insert `x` into `s` in front of the first element that is not strictly
   * before `x`: elements that compare equal keep their original order.
   */
  function Insert<T>(x: T, s: seq<T>, less: (T, T) -> bool): (r: seq<T>)
    ensures |r| == |s| + 1
    ensures multiset(r) == multiset(s) + multiset{x}
  {
    if s == [] then [x]
    else if less(s[0], x) then
      assert s == [s[0]] + s[1..];
      [s[0]] + Insert(x, s[1..], less)
    else [x] + s
  }

  /** A stable sort by the comparator `less`, as Swift's `sorted(by:)`. */
  function SortBy<T>(s: seq<T>, less: (T, T) -> bool): (r: seq<T>)
    ensures |r| == |s|
    ensures multiset(r) == multiset(s)
  {
    if s == [] then []
    else
      assert s == [s[0]] + s[1..];
      Insert(s[0], SortBy(s[1..], less), less)
  }

  /**
   * Inserting `x` among elements none of which `less` puts before `x` within
   * the class `cls`: the class keeps its order, with `x` at its head.
   */
  lemma {:induction false} InsertFiltered<T(!new)>(x: T, s: seq<T>, less: (T, T) -> bool, cls: T -> bool)
    requires forall y :: y in s && cls(y) && cls(x) ==> !less(y, x)
    ensures Filter(Insert(x, s, less), cls) == (if cls(x) then [x] else []) + Filter(s, cls)
  {
    if s != [] && less(s[0], x) {
      assert forall y :: y in s[1..] ==> y in s;
      InsertFiltered(x, s[1..], less, cls);
      InsertPastHead(x, s, less, cls);
    } else {
      assert Insert(x, s, less) == [x] + s;
      FilterCons(x, s, cls);
    }
  }

  /** When `x` goes past the head of `s`, the class of the result is the head's part, then that of the rest. */
  lemma InsertPastHead<T(!new)>(x: T, s: seq<T>, less: (T, T) -> bool, cls: T -> bool)
    requires s != [] && less(s[0], x) && (cls(x) ==> !cls(s[0]))
    requires Filter(Insert(x, s[1..], less), cls) == (if cls(x) then [x] else []) + Filter(s[1..], cls)
    ensures Filter(Insert(x, s, less), cls) == (if cls(x) then [x] else []) + Filter(s, cls)
  {
    var rest := Insert(x, s[1..], less);
    assert Insert(x, s, less) == [s[0]] + rest;
    FilterCons(s[0], rest, cls);
    FilterHead(s, cls);
    SwapFront(if cls(s[0]) then [s[0]] else [], if cls(x) then [x] else [], Filter(s[1..], cls));
  }

  /** Filtering a non-empty sequence: its head, then the rest. */
  lemma FilterHead<T(!new)>(s: seq<T>, keep: T -> bool)
    requires s != []
    ensures Filter(s, keep) == (if keep(s[0]) then [s[0]] else []) + Filter(s[1..], keep)
  {
  }

  /** Filtering an element in front of a sequence. */
  lemma FilterCons<T(!new)>(x: T, s: seq<T>, keep: T -> bool)
    ensures Filter([x] + s, keep) == (if keep(x) then [x] else []) + Filter(s, keep)
  {
    assert ([x] + s)[0] == x && ([x] + s)[1..] == s;
  }

  lemma SwapFront<T>(u: seq<T>, v: seq<T>, w: seq<T>)
    requires u == [] || v == []
    ensures u + (v + w) == v + (u + w)
  {
  }

  /**
   * `SortBy` is stable: the elements of any class that `less` does not
   * order among themselves come out in their input order.
   */
  lemma {:induction false} SortByStable<T(!new)>(s: seq<T>, less: (T, T) -> bool, cls: T -> bool)
    requires forall a, b :: a in s && b in s && cls(a) && cls(b) ==> !less(a, b)
    ensures Filter(SortBy(s, less), cls) == Filter(s, cls)
  {
    if s != [] {
      var t := SortBy(s[1..], less);
      assert forall y :: y in s[1..] ==> y in s;
      SortByStable(s[1..], less, cls);
      forall y | y in t && cls(y) && cls(s[0]) ensures !less(y, s[0]) {
        assert y in multiset(t);
        assert y in s;
      }
      InsertFiltered(s[0], t, less, cls);
    }
  }

  /** A sequence already in order comes back unchanged. */
  lemma {:induction false} SortByKeepsOrdered<T>(s: seq<T>, less: (T, T) -> bool)
    requires forall i :: 0 < i < |s| ==> !less(s[i], s[i - 1])
    ensures SortBy(s, less) == s
  {
    if s != [] {
      SortByKeepsOrdered(s[1..], less);
      assert s == [s[0]] + s[1..];
    }
  }

  /** No element is strictly before one that precedes it. */
  ghost predicate Sorted<T>(s: seq<T>, less: (T, T) -> bool) {
    forall i, j :: 0 <= i < j < |s| ==> !less(s[j], s[i])
  }

  /**
   * `less` behaves as a strict weak order on the elements of `s`:
   * it is asymmetric and "not before" is transitive.
   */
  ghost predicate StrictWeakOn<T>(less: (T, T) -> bool, s: seq<T>) {
    && (forall a, b :: a in s && b in s && less(a, b) ==> !less(b, a))
    && (forall a, b, c :: a in s && b in s && c in s && !less(a, b) && !less(b, c) ==> !less(a, c))
  }

  lemma {:induction false} InsertSorted<T>(x: T, s: seq<T>, less: (T, T) -> bool)
    requires Sorted(s, less)
    requires StrictWeakOn(less, [x] + s)
    ensures Sorted(Insert(x, s, less), less)
  {
    if s != [] && less(s[0], x) {
      var t := s[1..];
      assert forall y :: y in [x] + t ==> y in [x] + s;
      InsertSorted(x, t, less);
      var r := Insert(x, t, less);
      forall y | y in r ensures !less(y, s[0]) {
        assert y in multiset(r);
        if y != x {
          assert y in t;
          var k :| 0 <= k < |t| && t[k] == y;
          assert s[k + 1] == y;
        }
      }
    } else if s != [] {
      forall j | 0 <= j < |s| ensures !less(s[j], x) {
        if j > 0 {
          assert !less(s[j], s[0]);
        }
      }
    }
  }

  /** With a strict weak order on its elements, `SortBy` sorts. */
  lemma {:induction false} SortBySorted<T>(s: seq<T>, less: (T, T) -> bool)
    requires StrictWeakOn(less, s)
    ensures Sorted(SortBy(s, less), less)
  {
    if s != [] {
      assert forall y :: y in s[1..] ==> y in s;
      SortBySorted(s[1..], less);
      var t := SortBy(s[1..], less);
      forall y | y in [s[0]] + t ensures y in s {
        if y != s[0] {
          assert y in multiset(t);
        }
      }
      InsertSorted(s[0], t, less);
    }
  }

  /**
   * In a sorted sequence split after its first `k` elements, nothing in
   * the rest is before the last element of the first part.
   */
  lemma SortedRestNotBefore<T>(s: seq<T>, less: (T, T) -> bool, k: nat)
    requires Sorted(s, less) && 0 < k <= |s|
    ensures forall x :: x in multiset(s) - multiset(s[..k]) ==> !less(x, s[k - 1])
  {
    assert s == s[..k] + s[k..];
    assert multiset(s) - multiset(s[..k]) == multiset(s[k..]);
    forall x | x in multiset(s[k..]) ensures !less(x, s[k - 1]) {
      var j :| 0 <= j < |s[k..]| && s[k..][j] == x;
      assert s[k + j] == x;
    }
  }

  /**
   * Applies `step` with each of `rows` in turn, stopping with `None` at the
   * first step that fails.
   */
  function ApplyInTurn<T, R>(s: T, rows: seq<R>, step: (T, R) -> Option<T>): Option<T> {
    if rows == [] then Some(s)
    else match step(s, rows[0])
      case None => None
      case Some(next) => ApplyInTurn(next, rows[1..], step)
  }

  /** Applying the rows done so far and then one more is that one more step on what they left. */
  lemma {:induction false} ApplyInTurnSnoc<T, R>(s: T, done: seq<R>, row: R, step: (T, R) -> Option<T>, left: T)
    requires ApplyInTurn(s, done, step) == Some(left)
    ensures ApplyInTurn(s, done + [row], step) == step(left, row)
  {
    if done == [] {
      assert done + [row] == [row];
    } else {
      assert (done + [row])[0] == done[0];
      assert (done + [row])[1..] == done[1..] + [row];
      ApplyInTurnSnoc(step(s, done[0]).value, done[1..], row, step, left);
    }
  }

  function Min(a: int, b: int): int {
    if a < b then a else b
  }

  /** `s.prefix(n)`: at most the first `n` elements. */
  function Prefix<T>(s: seq<T>, n: nat): (r: seq<T>)
    ensures |r| == Min(n, |s|)
    ensures r == s[..|r|]
  {
    s[..Min(n, |s|)]
  }
}
