/** The ranking pipeline of `generateRecommendedClasses`:
    `Object.keys(scores).sort((a, b) => scores[b] - scores[a]).slice(0, 6).filter(k => scores[k] > 0)`.
    Classes are named by catalog position, and `sc[p]` is the score of the class at
    position `p`; `Object.keys` lists the positions in increasing order. */
module Ranking {
  import opened Collections

  /** How many classes are kept before the positive filter. */
  const MaxClasses := 6

  /** `x` comes before `y` in a stable descending sort of the catalog: it scores higher, or
      it scores the same and was defined earlier. */
  predicate Precedes(sc: seq<int>, x: nat, y: nat)
    requires x < |sc| && y < |sc|
  {
    sc[x] > sc[y] || (sc[x] == sc[y] && x < y)
  }

  predicate InRange(sc: seq<int>, s: seq<nat>)
  {
    forall k :: 0 <= k < |s| ==> s[k] < |sc|
  }

  /** Ordered by non-increasing score, equal scores in catalog order. */
  predicate Ranked(sc: seq<int>, s: seq<nat>)
  {
    InRange(sc, s) && forall i, j :: 0 <= i < j < |s| ==> Precedes(sc, s[i], s[j])
  }

  predicate Increasing(s: seq<nat>)
  {
    forall i, j :: 0 <= i < j < |s| ==> s[i] < s[j]
  }

  /** The key list `Object.keys(scores)`: every catalog position, in definition order. */
  function Positions(n: nat): (r: seq<nat>)
    ensures |r| == n
    ensures forall k :: 0 <= k < n ==> r[k] == k
  {
    if n == 0 then [] else Positions(n - 1) + [n - 1]
  }

  /** Puts `x` in front of the first entry that does not score higher than it. */
  function Insert(sc: seq<int>, x: nat, s: seq<nat>): (r: seq<nat>)
    requires x < |sc| && InRange(sc, s)
    ensures InRange(sc, r)
    ensures multiset(r) == multiset(s) + multiset{x}
  {
    if s == [] || sc[s[0]] <= sc[x] then [x] + s
    else
      assert s == [s[0]] + s[1..];
      [s[0]] + Insert(sc, x, s[1..])
  }

  /** A stable sort by descending score: entries are inserted from the back, each in
      front of the entries that score no higher, so an earlier entry stays ahead of a
      later one with the same score. */
  function SortByScore(sc: seq<int>, s: seq<nat>): (r: seq<nat>)
    requires InRange(sc, s)
    ensures InRange(sc, r)
    ensures multiset(r) == multiset(s)
  {
    if s == [] then []
    else
      assert s == [s[0]] + s[1..];
      Insert(sc, s[0], SortByScore(sc, s[1..]))
  }

  /** The sorted key list for the whole catalog. */
  function Sorted(sc: seq<int>): seq<nat>
  {
    SortByScore(sc, Positions(|sc|))
  }

  /** `s.filter(k => scores[k] > 0)`. */
  function FilterPositive(sc: seq<int>, s: seq<nat>): (r: seq<nat>)
    requires InRange(sc, s)
    ensures |r| <= |s| && InRange(sc, r)
    ensures forall k :: 0 <= k < |r| ==> sc[r[k]] > 0
  {
    if s == [] then []
    else if sc[s[0]] > 0 then [s[0]] + FilterPositive(sc, s[1..])
    else FilterPositive(sc, s[1..])
  }

  /** The recommended classes, best first: at most six, each with a positive score. */
  function TopPositions(sc: seq<int>): (r: seq<nat>)
    ensures |r| <= MaxClasses
    ensures InRange(sc, r)
    ensures forall k :: 0 <= k < |r| ==> sc[r[k]] > 0
  {
    FilterPositive(sc, Take(Sorted(sc), MaxClasses))
  }

  /** The classes that a stable descending sort puts ahead of `p`. */
  function Ahead(sc: seq<int>, p: nat): set<nat>
    requires p < |sc|
  {
    set q: nat | q < |sc| && Precedes(sc, q, p)
  }

  /** How many classes a stable descending sort puts ahead of `p`. */
  function Outranking(sc: seq<int>, p: nat): nat
    requires p < |sc|
  {
    |Ahead(sc, p)|
  }

  /** The number of leading entries with a positive score. */
  function LeadingPositive(sc: seq<int>, s: seq<nat>): (k: nat)
    requires InRange(sc, s)
    ensures k <= |s|
  {
    if s == [] || sc[s[0]] <= 0 then 0 else 1 + LeadingPositive(sc, s[1..])
  }

  /** An entry survives the filter exactly when it is in the list and scores above 0. */
  lemma {:induction false} FilterMembers(sc: seq<int>, s: seq<nat>, x: nat)
    requires InRange(sc, s) && x < |sc|
    ensures x in FilterPositive(sc, s) <==> x in s && sc[x] > 0
  {
    if s != [] {
      FilterMembers(sc, s[1..], x);
      assert s == [s[0]] + s[1..];
    }
  }

  // ----- the sort -----

  lemma RankedTail(sc: seq<int>, s: seq<nat>)
    requires Ranked(sc, s) && s != []
    ensures Ranked(sc, s[1..])
  {
    assert forall k :: 0 <= k < |s[1..]| ==> s[1..][k] == s[k + 1];
  }

  /** A ranked list stays ranked when an entry that outranks all of it goes in front. */
  lemma RankedCons(sc: seq<int>, x: nat, s: seq<nat>)
    requires x < |sc| && Ranked(sc, s)
    requires forall k :: 0 <= k < |s| ==> Precedes(sc, x, s[k])
    ensures Ranked(sc, [x] + s)
  {
    var r := [x] + s;
    forall i, j | 0 <= i < j < |r| ensures Precedes(sc, r[i], r[j]) {
      assert r[j] == s[j - 1];
      if i > 0 { assert r[i] == s[i - 1]; }
    }
  }

  lemma {:induction false} InsertRanked(sc: seq<int>, x: nat, s: seq<nat>)
    requires x < |sc| && Ranked(sc, s)
    requires forall k :: 0 <= k < |s| ==> x < s[k]
    ensures Ranked(sc, Insert(sc, x, s))
  {
    if s == [] || sc[s[0]] <= sc[x] {
      forall k | 0 <= k < |s| ensures Precedes(sc, x, s[k]) {
        if k > 0 { assert Precedes(sc, s[0], s[k]); }
      }
      RankedCons(sc, x, s);
    } else {
      RankedTail(sc, s);
      assert forall k :: 0 <= k < |s[1..]| ==> x < s[1..][k];
      InsertRanked(sc, x, s[1..]);
      var t := Insert(sc, x, s[1..]);
      forall k | 0 <= k < |t| ensures Precedes(sc, s[0], t[k]) {
        assert t[k] in multiset(t);
        if t[k] != x {
          assert t[k] in multiset(s[1..]);
          var m :| 0 <= m < |s[1..]| && s[1..][m] == t[k];
          assert Precedes(sc, s[0], s[m + 1]);
        }
      }
      RankedCons(sc, s[0], t);
    }
  }

  /** Sorting a list given in catalog order yields a ranked list. */
  lemma {:induction false} SortRanked(sc: seq<int>, s: seq<nat>)
    requires InRange(sc, s) && Increasing(s)
    ensures Ranked(sc, SortByScore(sc, s))
  {
    if s != [] {
      var tail := s[1..];
      assert InRange(sc, tail) && Increasing(tail) by {
        assert forall k :: 0 <= k < |tail| ==> tail[k] == s[k + 1];
      }
      SortRanked(sc, tail);
      var t := SortByScore(sc, tail);
      forall k | 0 <= k < |t| ensures s[0] < t[k] {
        assert t[k] in multiset(tail);
        var m :| 0 <= m < |tail| && tail[m] == t[k];
        assert tail[m] == s[m + 1];
      }
      InsertRanked(sc, s[0], t);
    }
  }

  /** Two ranked arrangements of the same classes are the same list: ranking leaves no
      freedom, so every stable descending sort agrees with `SortByScore`. */
  lemma {:induction false} RankedUnique(sc: seq<int>, a: seq<nat>, b: seq<nat>)
    requires Ranked(sc, a) && Ranked(sc, b) && multiset(a) == multiset(b)
    ensures a == b
  {
    assert |a| == |multiset(a)| == |multiset(b)| == |b|;
    if a != [] {
      assert a[0] in multiset(b) && b[0] in multiset(a);
      assert a[0] == b[0];
      assert a == [a[0]] + a[1..] && b == [b[0]] + b[1..];
      assert multiset(a) == multiset{a[0]} + multiset(a[1..]) by { assert a == [a[0]] + a[1..]; }
      assert multiset(b) == multiset{b[0]} + multiset(b[1..]) by { assert b == [b[0]] + b[1..]; }
      assert multiset(a[1..]) == multiset(a) - multiset{a[0]};
      assert multiset(b[1..]) == multiset(b) - multiset{b[0]};
      RankedTail(sc, a);
      RankedTail(sc, b);
      RankedUnique(sc, a[1..], b[1..]);
    }
  }

  /** The sorted key list is ranked and holds every catalog position exactly once. */
  lemma SortedFacts(sc: seq<int>)
    ensures Ranked(sc, Sorted(sc))
    ensures |Sorted(sc)| == |sc| && NoDup(Sorted(sc))
    ensures forall p: nat :: p in Sorted(sc) <==> p < |sc|
  {
    var pos := Positions(|sc|);
    SortRanked(sc, pos);
    var srt := Sorted(sc);
    assert |srt| == |multiset(srt)| == |multiset(pos)| == |pos|;
    forall p: nat ensures p in srt <==> p < |sc| {
      assert p in srt <==> p in multiset(pos);
      if p < |sc| { assert pos[p] == p; }
    }
  }

  /** Whatever stable algorithm sorts the keys by descending score, the result is
      `Sorted(sc)`. */
  lemma AnyStableSortAgrees(sc: seq<int>, t: seq<nat>)
    requires Ranked(sc, t) && multiset(t) == multiset(Positions(|sc|))
    ensures t == Sorted(sc)
  {
    SortedFacts(sc);
    RankedUnique(sc, t, Sorted(sc));
  }

  // ----- the cut to six and the positive filter -----

  lemma RankedPrefix(sc: seq<int>, s: seq<nat>, n: nat)
    requires Ranked(sc, s) && n <= |s|
    ensures Ranked(sc, s[..n])
  {
    assert forall k :: 0 <= k < n ==> s[..n][k] == s[k];
  }

  /** On a ranked list whose first score is 0 or less, no score is positive, so nothing
      passes the filter. */
  lemma RankedNonPositiveHead(sc: seq<int>, s: seq<nat>)
    requires Ranked(sc, s) && s != [] && sc[s[0]] <= 0
    ensures forall k :: 0 <= k < |s| ==> sc[s[k]] <= 0
    ensures FilterPositive(sc, s) == []
  {
    forall k | 0 < k < |s| ensures sc[s[k]] <= 0 {
      assert Precedes(sc, s[0], s[k]);
    }
  }

  /** On a ranked list the positive entries form a prefix: once one score is 0 or less,
      every later score is too. */
  lemma {:induction false} FilterRankedIsPrefix(sc: seq<int>, s: seq<nat>)
    requires Ranked(sc, s)
    ensures FilterPositive(sc, s) == s[..LeadingPositive(sc, s)]
    ensures forall k :: 0 <= k < LeadingPositive(sc, s) ==> sc[s[k]] > 0
    ensures forall k :: LeadingPositive(sc, s) <= k < |s| ==> sc[s[k]] <= 0
  {
    if s == [] {
    } else if sc[s[0]] <= 0 {
      RankedNonPositiveHead(sc, s);
    } else {
      var tail := s[1..];
      RankedTail(sc, s);
      FilterRankedIsPrefix(sc, tail);
      var n := LeadingPositive(sc, tail);
      assert LeadingPositive(sc, s) == n + 1;
      assert FilterPositive(sc, s) == [s[0]] + FilterPositive(sc, tail);
      assert s[..n + 1] == [s[0]] + tail[..n];
      forall k | 0 <= k < n + 1 ensures sc[s[k]] > 0 {
        if k > 0 { assert s[k] == tail[k - 1]; }
      }
      forall k | n + 1 <= k < |s| ensures sc[s[k]] <= 0 {
        assert s[k] == tail[k - 1];
      }
    }
  }

  /** The recommended classes are ranked and are the first few entries of the sorted list. */
  lemma TopIsRankedPrefix(sc: seq<int>)
    ensures Ranked(sc, TopPositions(sc))
    ensures TopPositions(sc) == Sorted(sc)[..|TopPositions(sc)|]
  {
    SortedFacts(sc);
    var cut := Take(Sorted(sc), MaxClasses);
    RankedPrefix(sc, Sorted(sc), |cut|);
    FilterRankedIsPrefix(sc, cut);
    RankedPrefix(sc, cut, LeadingPositive(sc, cut));
  }

  /** The position of `p` in the sorted list is the number of classes that outrank it. */
  lemma SortedIndexIsOutranking(sc: seq<int>, p: nat, i: nat)
    requires p < |sc| && i < |Sorted(sc)| && Sorted(sc)[i] == p
    ensures Outranking(sc, p) == i
  {
    SortedFacts(sc);
    var srt := Sorted(sc);
    var ahead := Ahead(sc, p);
    forall q: nat ensures q in ahead <==> q in srt[..i] {
      if q in ahead {
        assert q in srt;
        var m :| 0 <= m < |srt| && srt[m] == q;
        assert m < i;
        assert srt[..i][m] == q;
      }
      if q in srt[..i] {
        var m :| 0 <= m < i && srt[..i][m] == q;
        assert srt[m] == q && Precedes(sc, srt[m], srt[i]);
      }
    }
    assert ahead == Elements(srt[..i]);
    assert NoDup(srt[..i]) by {
      assert forall k :: 0 <= k < i ==> srt[..i][k] == srt[k];
    }
    DistinctCardinality(srt[..i]);
  }

  /** A class is recommended exactly when its score is positive and fewer than six classes
      outrank it; this characterisation does not mention the sort at all. */
  lemma TopMembership(sc: seq<int>, p: nat)
    requires p < |sc|
    ensures p in TopPositions(sc) <==> sc[p] > 0 && Outranking(sc, p) < MaxClasses
  {
    SortedFacts(sc);
    var srt := Sorted(sc);
    var cut := Take(srt, MaxClasses);
    assert p in srt;
    var i :| 0 <= i < |srt| && srt[i] == p;
    SortedIndexIsOutranking(sc, p, i);
    if i < |cut| {
      assert cut[i] == p;
    } else {
      assert p !in cut by {
        forall k | 0 <= k < |cut| ensures cut[k] != p {
          assert cut[k] == srt[k];
        }
      }
    }
    FilterMembers(sc, cut, p);
  }

  // ----- shifting every score by the same amount -----

  /** Adding the same amount to every score changes no comparison, so it leaves the sorted
      order as it is. */
  lemma ShiftKeepsOrder(sc1: seq<int>, sc2: seq<int>, d: int)
    requires |sc1| == |sc2|
    requires forall p :: 0 <= p < |sc1| ==> sc2[p] == sc1[p] + d
    ensures Sorted(sc1) == Sorted(sc2)
  {
    SortedFacts(sc1);
    SortedFacts(sc2);
    var srt := Sorted(sc1);
    assert Ranked(sc2, srt) by {
      forall i, j | 0 <= i < j < |srt| ensures Precedes(sc2, srt[i], srt[j]) {
        assert Precedes(sc1, srt[i], srt[j]);
      }
    }
    RankedUnique(sc2, srt, Sorted(sc2));
  }

  /** Higher scores never shorten the run of leading positive scores. */
  lemma {:induction false} LeadingPositiveMonotone(sc1: seq<int>, sc2: seq<int>, s: seq<nat>)
    requires |sc1| == |sc2| && InRange(sc1, s)
    requires forall p :: 0 <= p < |sc1| ==> sc1[p] <= sc2[p]
    ensures LeadingPositive(sc1, s) <= LeadingPositive(sc2, s)
  {
    if s != [] && sc1[s[0]] > 0 {
      assert sc2[s[0]] > 0;
      LeadingPositiveMonotone(sc1, sc2, s[1..]);
    }
  }

  /** On a list ranked under both score tables, filtering with the higher scores keeps at
      least the entries the lower scores keep. */
  lemma FilterRaisedExtends(sc1: seq<int>, sc2: seq<int>, s: seq<nat>)
    requires |sc1| == |sc2| && Ranked(sc1, s) && Ranked(sc2, s)
    requires forall p :: 0 <= p < |sc1| ==> sc1[p] <= sc2[p]
    ensures |FilterPositive(sc1, s)| <= |FilterPositive(sc2, s)|
    ensures FilterPositive(sc1, s) == FilterPositive(sc2, s)[..|FilterPositive(sc1, s)|]
  {
    FilterRankedIsPrefix(sc1, s);
    FilterRankedIsPrefix(sc2, s);
    var k1, k2 := LeadingPositive(sc1, s), LeadingPositive(sc2, s);
    LeadingPositiveMonotone(sc1, sc2, s);
    var f1, f2 := FilterPositive(sc1, s), FilterPositive(sc2, s);
    assert f2[..k1] == s[..k1];
  }

  /** Raising every score by the same non-negative amount keeps the recommended classes
      and can only append more of them. */
  lemma RaiseExtendsTop(sc1: seq<int>, sc2: seq<int>, d: nat)
    requires |sc1| == |sc2|
    requires forall p :: 0 <= p < |sc1| ==> sc2[p] == sc1[p] + d
    ensures |TopPositions(sc1)| <= |TopPositions(sc2)|
    ensures TopPositions(sc1) == TopPositions(sc2)[..|TopPositions(sc1)|]
  {
    ShiftKeepsOrder(sc1, sc2, d);
    SortedFacts(sc1);
    SortedFacts(sc2);
    var cut := Take(Sorted(sc1), MaxClasses);
    RankedPrefix(sc1, Sorted(sc1), |cut|);
    RankedPrefix(sc2, Sorted(sc2), |cut|);
    FilterRaisedExtends(sc1, sc2, cut);
  }

  /** When no class scores above 0 nothing is recommended. */
  lemma NoPositiveNoTop(sc: seq<int>)
    requires forall p :: 0 <= p < |sc| ==> sc[p] <= 0
    ensures TopPositions(sc) == []
  {
    FilterNonPositive(sc, Take(Sorted(sc), MaxClasses));
  }

  lemma {:induction false} FilterNonPositive(sc: seq<int>, s: seq<nat>)
    requires InRange(sc, s) && forall k :: 0 <= k < |s| ==> sc[s[k]] <= 0
    ensures FilterPositive(sc, s) == []
  {
    if s != [] {
      FilterNonPositive(sc, s[1..]);
    }
  }
}
