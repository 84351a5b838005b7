/** Small facts about sequences shared by the ranking, the workout-type union and the
    multi-select list. */
module Collections {

  function Min(a: int, b: int): int { if a <= b then a else b }

  /** No value occurs twice. */
  predicate NoDup<T(==)>(s: seq<T>)
  {
    forall i, j :: 0 <= i < j < |s| ==> s[i] != s[j]
  }

  /** `s[..n]`, or all of `s` when it is shorter: JavaScript's `s.slice(0, n)`. */
  function Take<T>(s: seq<T>, n: nat): (r: seq<T>)
    ensures |r| == Min(n, |s|)
    ensures r == s[..|r|]
  {
    s[..Min(n, |s|)]
  }

  /** Taking from `x + y`: all of `x` comes first when it fits, and `y` is not reached
      once `x` alone is long enough. */
  lemma TakeOfConcat<T>(x: seq<T>, y: seq<T>, n: nat)
    ensures |x| <= n ==> Take(x + y, n)[..|x|] == x
    ensures |x| >= n ==> Take(x + y, n) == x[..n]
  {
    if |x| <= n {
      assert (x + y)[..|x|] == x;
    } else {
      assert (x + y)[..n] == x[..n];
    }
  }

  /** The values that occur in `s`. */
  function Elements<T>(s: seq<T>): set<T>
  {
    set x | x in s
  }

  /** A duplicate-free sequence has as many distinct values as it has entries. */
  lemma {:induction false} DistinctCardinality<T>(s: seq<T>)
    requires NoDup(s)
    ensures |Elements(s)| == |s|
  {
    if s != [] {
      var tail := s[1..];
      assert NoDup(tail) by {
        forall i, j | 0 <= i < j < |tail| ensures tail[i] != tail[j] {
          assert tail[i] == s[i + 1] && tail[j] == s[j + 1];
        }
      }
      DistinctCardinality(tail);
      assert s[0] !in tail by {
        forall k | 0 <= k < |tail| ensures tail[k] != s[0] {
          assert tail[k] == s[k + 1];
        }
      }
      assert Elements(s) == Elements(tail) + {s[0]} by {
        assert s == [s[0]] + tail;
      }
    }
  }

  /** Removing the entry at `i` keeps every other entry, in order, and removes one count
      of the value that was there. */
  lemma RemoveAtMultiset<T>(s: seq<T>, i: nat)
    requires i < |s|
    ensures multiset(s[..i] + s[i + 1..]) == multiset(s) - multiset{s[i]}
  {
    assert s == s[..i] + [s[i]] + s[i + 1..];
  }

  /** Where the entries of `s` go when the entry at `i` is removed: those before it stay
      put, those after it move up by one. */
  lemma RemoveAtShifts<T>(s: seq<T>, i: nat, r: seq<T>)
    requires i < |s| && r == s[..i] + s[i + 1..]
    ensures |r| == |s| - 1
    ensures forall k :: 0 <= k < i ==> r[k] == s[k]
    ensures forall k :: i <= k < |s| - 1 ==> r[k] == s[k + 1]
  {
  }

  /** Removing an entry from a duplicate-free sequence leaves a duplicate-free sequence
      without that value. */
  lemma RemoveAtNoDup<T>(s: seq<T>, i: nat)
    requires i < |s| && NoDup(s)
    ensures NoDup(s[..i] + s[i + 1..])
    ensures s[i] !in s[..i] + s[i + 1..]
  {
    var r := s[..i] + s[i + 1..];
    assert forall k :: 0 <= k < i ==> r[k] == s[k];
    assert forall k :: i <= k < |r| ==> r[k] == s[k + 1];
  }

  /** `s.indexOf(x)`: the index of the first occurrence of `x`, or -1 when there is none. */
  function IndexOf<T(==)>(s: seq<T>, x: T): (i: int)
    ensures -1 <= i < |s|
    ensures i == -1 <==> x !in s
    ensures 0 <= i ==> s[i] == x && x !in s[..i]
  {
    if s == [] then -1
    else if s[0] == x then 0
    else
      var k := IndexOf(s[1..], x);
      assert s == [s[0]] + s[1..];
      if k == -1 then -1
      else
        assert s[..k + 1] == [s[0]] + s[1..][..k];
        k + 1
  }

  /** An index holding `y` with no earlier `y` is the first index of `y`. */
  lemma IndexOfUnique<T>(s: seq<T>, y: T, j: nat)
    requires j < |s| && s[j] == y && y !in s[..j]
    ensures IndexOf(s, y) == j
  {
  }

  /** The first index of a value in a concatenation. */
  lemma IndexOfConcat<T>(a: seq<T>, b: seq<T>, y: T)
    requires y in a + b
    ensures y in a ==> IndexOf(a + b, y) == IndexOf(a, y)
    ensures y !in a ==> IndexOf(a + b, y) == |a| + IndexOf(b, y)
  {
    var s := a + b;
    if y in a {
      var k := IndexOf(a, y);
      assert s[..k] == a[..k];
      IndexOfUnique(s, y, k);
    } else {
      var k := IndexOf(b, y);
      assert s[..|a| + k] == a + b[..k];
      IndexOfUnique(s, y, |a| + k);
    }
  }
}
