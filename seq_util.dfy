/** Generic list operations used by the filter widget: order-preserving
    subsequences, `filter(x => x !== v)` and `[...new Set(xs)]`. */
module SeqUtil {

  /** `xs` can be obtained from `ys` by deleting elements, keeping order. */
  predicate IsSubsequence<T(==)>(xs: seq<T>, ys: seq<T>)
    decreases |ys|
  {
    xs == [] ||
    (ys != [] &&
     ((xs[0] == ys[0] && IsSubsequence(xs[1..], ys[1..])) || IsSubsequence(xs, ys[1..])))
  }

  /** `xs.filter(y => y !== x)`. */
  function RemoveAll<T(==)>(xs: seq<T>, x: T): seq<T> {
    if xs == [] then []
    else (if xs[0] == x then [] else [xs[0]]) + RemoveAll(xs[1..], x)
  }

  /** Removing `x` drops every occurrence of `x` and keeps every other
      element with its multiplicity. */
  lemma {:induction false} RemoveAllCounts<T>(xs: seq<T>, x: T)
    ensures x !in RemoveAll(xs, x)
    ensures forall y :: y != x ==> multiset(RemoveAll(xs, x))[y] == multiset(xs)[y]
  {
    if xs != [] {
      RemoveAllCounts(xs[1..], x);
      assert xs == [xs[0]] + xs[1..];
      assert multiset(xs) == multiset([xs[0]]) + multiset(xs[1..]);
    }
  }

  /** What remains after removing `x` keeps its order from the input. */
  lemma {:induction false} RemoveAllOrder<T>(xs: seq<T>, x: T)
    ensures IsSubsequence(RemoveAll(xs, x), xs)
  {
    if xs != [] {
      RemoveAllOrder(xs[1..], x);
      var r := RemoveAll(xs, x);
      var rest := RemoveAll(xs[1..], x);
      if xs[0] == x {
        assert r == rest;
      } else {
        assert r == [xs[0]] + rest;
        assert r[1..] == rest;
      }
    }
  }

  /** No value occurs twice. */
  predicate Distinct<T(==)>(xs: seq<T>) {
    forall i, j :: 0 <= i < j < |xs| ==> xs[i] != xs[j]
  }

  /** Removing a value keeps a duplicate-free list duplicate-free. */
  lemma {:induction false} RemoveAllDistinct<T>(xs: seq<T>, x: T)
    ensures Distinct(xs) ==> Distinct(RemoveAll(xs, x))
  {
    if xs != [] && Distinct(xs) {
      var rest := xs[1..];
      assert Distinct(rest) by {
        forall i, j | 0 <= i < j < |rest| ensures rest[i] != rest[j] {
          assert rest[i] == xs[i + 1] && rest[j] == xs[j + 1];
        }
      }
      RemoveAllDistinct(rest, x);
      var r := RemoveAll(rest, x);
      if xs[0] != x {
        RemoveAllCounts(rest, x);
        assert xs[0] !in rest by {
          forall k | 0 <= k < |rest| ensures rest[k] != xs[0] {
            assert rest[k] == xs[k + 1];
          }
        }
        assert multiset(rest)[xs[0]] == 0;
        assert xs[0] !in r by {
          assert multiset(r)[xs[0]] == 0;
        }
        var out := RemoveAll(xs, x);
        assert out == [xs[0]] + r;
        forall i, j | 0 <= i < j < |out| ensures out[i] != out[j] {
          if i == 0 {
            assert out[j] == r[j - 1];
          } else {
            assert out[i] == r[i - 1] && out[j] == r[j - 1];
          }
        }
      }
    }
  }

  /** Removing a value that is not there changes nothing. */
  lemma {:induction false} RemoveAbsent<T>(xs: seq<T>, x: T)
    requires x !in xs
    ensures RemoveAll(xs, x) == xs
  {
    if xs != [] {
      assert xs[0] != x;
      RemoveAbsent(xs[1..], x);
      assert xs == [xs[0]] + xs[1..];
    }
  }

  /** Removing distributes over concatenation. */
  lemma {:induction false} RemoveAllAppend<T>(xs: seq<T>, ys: seq<T>, x: T)
    ensures RemoveAll(xs + ys, x) == RemoveAll(xs, x) + RemoveAll(ys, x)
  {
    if xs != [] {
      assert (xs + ys)[1..] == xs[1..] + ys;
      RemoveAllAppend(xs[1..], ys, x);
    } else {
      assert xs + ys == ys;
    }
  }

  /** Index of the first occurrence of `x` in `xs`. */
  function IndexOf<T(==)>(xs: seq<T>, x: T): (r: nat)
    requires x in xs
    ensures r < |xs| && xs[r] == x && x !in xs[..r]
  {
    if x in xs[..|xs| - 1] then IndexOf(xs[..|xs| - 1], x) else |xs| - 1
  }

  /** `[...new Set(xs)]`: each distinct value once, where it first occurs. A
      `Set` remembers insertion order, so the list is built by appending each
      element that has not been seen before. */
  function Dedup<T(==)>(xs: seq<T>): seq<T> {
    if xs == [] then []
    else
      var seen := Dedup(xs[..|xs| - 1]);
      if xs[|xs| - 1] in seen then seen else seen + [xs[|xs| - 1]]
  }

  /** The de-duplicated list has the same values as its input, holds each of
      them once, and lists them in the order of their first occurrence. */
  lemma {:induction false} DedupSpec<T>(xs: seq<T>)
    ensures forall x :: x in Dedup(xs) <==> x in xs
    ensures forall i, j :: 0 <= i < j < |Dedup(xs)| ==> Dedup(xs)[i] != Dedup(xs)[j]
    ensures forall i, j :: 0 <= i < j < |Dedup(xs)| ==>
              IndexOf(xs, Dedup(xs)[i]) < IndexOf(xs, Dedup(xs)[j])
  {
    if xs != [] {
      var init, last := xs[..|xs| - 1], xs[|xs| - 1];
      DedupSpec(init);
      assert xs == init + [last];
      var seen := Dedup(init);
      forall x | x in init
        ensures IndexOf(xs, x) == IndexOf(init, x)
      {
      }
      if last !in seen {
        assert last !in init;
        assert IndexOf(xs, last) == |init|;
        assert Dedup(xs) == seen + [last];
      }
    }
  }
}
