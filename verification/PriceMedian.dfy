/** The median of the fresh keeper reports: an in-place insertion sort, proved against the sorted
    rearrangement of its input, and the reason a median is used at all: a minority of reports,
    whatever it says, cannot move the result outside the range the majority agrees on. */
module PriceMedian {

  predicate IsSorted(s: seq<nat>) { forall i, j :: 0 <= i < j < |s| ==> s[i] <= s[j] }

  function Insert(x: nat, s: seq<nat>): seq<nat> {
    if s == [] then [x] else if x <= s[0] then [x] + s else [s[0]] + Insert(x, s[1..])
  }

  /** The sorted rearrangement of `s`. */
  function SortedOf(s: seq<nat>): seq<nat> {
    if s == [] then [] else Insert(s[0], SortedOf(s[1..]))
  }

  /** Middle element, or floored average of the two middle elements; zero when nothing is fresh. */
  function MedianOf(s: seq<nat>): nat {
    var t, n := SortedOf(s), |s|;
    SortedOfLength(s);
    if n == 0 then 0 else if n % 2 == 1 then t[n / 2] else (t[n / 2 - 1] + t[n / 2]) / 2
  }

  lemma {:induction false} InsertLength(x: nat, s: seq<nat>)
    ensures |Insert(x, s)| == |s| + 1
  {
    if s != [] && x > s[0] {
      InsertLength(x, s[1..]);
    }
  }

  lemma {:induction false} SortedOfLength(s: seq<nat>)
    ensures |SortedOf(s)| == |s|
  {
    if s != [] {
      SortedOfLength(s[1..]);
      InsertLength(s[0], SortedOf(s[1..]));
    }
  }

  lemma {:induction false} InsertKeepsAll(x: nat, s: seq<nat>)
    ensures multiset(Insert(x, s)) == multiset(s) + multiset{x}
  {
    if s != [] && x > s[0] {
      InsertKeepsAll(x, s[1..]);
      assert s == [s[0]] + s[1..];
    }
  }

  lemma {:induction false} InsertAbove(x: nat, s: seq<nat>, least: nat)
    requires least <= x && forall i :: 0 <= i < |s| ==> least <= s[i]
    ensures forall i :: 0 <= i < |Insert(x, s)| ==> least <= Insert(x, s)[i]
  {
    if s != [] && x > s[0] {
      InsertAbove(x, s[1..], least);
    }
  }

  lemma {:induction false} InsertSorts(x: nat, s: seq<nat>)
    requires IsSorted(s)
    ensures IsSorted(Insert(x, s))
  {
    if s != [] && x > s[0] {
      InsertSorts(x, s[1..]);
      InsertAbove(x, s[1..], s[0]);
    }
  }

  lemma {:induction false} SortedOfSorts(s: seq<nat>)
    ensures IsSorted(SortedOf(s)) && multiset(SortedOf(s)) == multiset(s)
  {
    if s != [] {
      SortedOfSorts(s[1..]);
      InsertSorts(s[0], SortedOf(s[1..]));
      InsertKeepsAll(s[0], SortedOf(s[1..]));
      assert s == [s[0]] + s[1..];
    }
  }

  lemma WithoutOne(s: seq<nat>, k: nat)
    requires k < |s|
    ensures multiset(s[..k] + s[k + 1..]) == multiset(s) - multiset{s[k]}
  {
    assert s == s[..k] + ([s[k]] + s[k + 1..]);
    assert multiset(s) == multiset(s[..k]) + (multiset{s[k]} + multiset(s[k + 1..]));
  }

  lemma SameHead(a: seq<nat>, b: seq<nat>)
    requires IsSorted(a) && IsSorted(b) && multiset(a) == multiset(b) && a != [] && b != []
    ensures a[0] == b[0]
  {
    HeadBelow(a, b);
    HeadBelow(b, a);
  }

  lemma HeadBelow(a: seq<nat>, b: seq<nat>)
    requires IsSorted(a) && multiset(a) == multiset(b) && a != [] && b != []
    ensures a[0] <= b[0]
  {
    assert b[0] in multiset(b);
    assert b[0] in a;
  }

  lemma SameTail(a: seq<nat>, b: seq<nat>)
    requires multiset(a) == multiset(b) && a != [] && b != [] && a[0] == b[0]
    ensures multiset(a[1..]) == multiset(b[1..])
  {
    assert a == [a[0]] + a[1..] && b == [b[0]] + b[1..];
    assert multiset(a) == multiset{a[0]} + multiset(a[1..]) && multiset(b) == multiset{a[0]} + multiset(b[1..]);
    assert multiset(a[1..]) == multiset(a) - multiset{a[0]};
  }

  lemma SameLength(a: seq<nat>, b: seq<nat>)
    requires multiset(a) == multiset(b)
    ensures |a| == |b|
  {
    assert |multiset(a)| == |a| && |multiset(b)| == |b|;
  }

  /** A sorted rearrangement is unique. */
  lemma {:induction false} SortedUnique(a: seq<nat>, b: seq<nat>)
    requires IsSorted(a) && IsSorted(b) && multiset(a) == multiset(b)
    ensures a == b
    decreases |a|
  {
    SameLength(a, b);
    if a != [] {
      SameHead(a, b);
      SameTail(a, b);
      var x, y := a[1..], b[1..];
      SortedUnique(x, y);
      assert a == [a[0]] + x && b == [b[0]] + y;
    }
  }

  /** The order in which keepers are enumerated does not matter. */
  lemma MedianOrderFree(a: seq<nat>, b: seq<nat>)
    requires multiset(a) == multiset(b)
    ensures MedianOf(a) == MedianOf(b)
  {
    SortedOfSorts(a);
    SortedOfSorts(b);
    SortedUnique(SortedOf(a), SortedOf(b));
    SortedOfLength(a);
    SortedOfLength(b);
  }

  /** What the median is, given any sorted arrangement of the reports: the middle one of an odd number; of an even
      number, half the sum of the two in the middle, rounded down; zero of none. */
  lemma MedianMeaning(s: seq<nat>, t: seq<nat>)
    requires IsSorted(t) && multiset(t) == multiset(s)
    ensures |t| == |s|
    ensures s == [] ==> MedianOf(s) == 0
    ensures |s| % 2 == 1 ==> MedianOf(s) == t[|s| / 2]
    ensures |s| > 0 && |s| % 2 == 0 ==> 2 * MedianOf(s) <= t[|s| / 2 - 1] + t[|s| / 2] <= 2 * MedianOf(s) + 1
  {
    SameLength(t, s);
    SortedOfSorts(s);
    SortedUnique(SortedOf(s), t);
    SortedOfLength(s);
  }

  // ---------- Robustness ----------

  /** How many reports lie within [lo, hi]. */
  function CountIn(s: seq<nat>, lo: nat, hi: nat): nat {
    if s == [] then 0 else (if lo <= s[0] <= hi then 1 else 0) + CountIn(s[1..], lo, hi)
  }

  lemma {:induction false} CountConcat(a: seq<nat>, b: seq<nat>, lo: nat, hi: nat)
    ensures CountIn(a + b, lo, hi) == CountIn(a, lo, hi) + CountIn(b, lo, hi)
  {
    if a == [] {
      assert a + b == b;
    } else {
      assert (a + b)[1..] == a[1..] + b;
      CountConcat(a[1..], b, lo, hi);
    }
  }

  lemma CountWithout(s: seq<nat>, k: nat, lo: nat, hi: nat)
    requires k < |s|
    ensures CountIn(s, lo, hi) == CountIn(s[..k] + s[k + 1..], lo, hi) + (if lo <= s[k] <= hi then 1 else 0)
  {
    assert s == s[..k] + ([s[k]] + s[k + 1..]);
    CountConcat(s[..k], [s[k]] + s[k + 1..], lo, hi);
    CountConcat(s[..k], s[k + 1..], lo, hi);
    CountConcat([s[k]], s[k + 1..], lo, hi);
  }

  lemma {:induction false} CountPermuted(a: seq<nat>, b: seq<nat>, lo: nat, hi: nat)
    requires multiset(a) == multiset(b)
    ensures CountIn(a, lo, hi) == CountIn(b, lo, hi)
    decreases |a|
  {
    SameLength(a, b);
    if a != [] {
      assert a[0] in multiset(a) && a[0] in b;
      var k :| 0 <= k < |b| && b[k] == a[0];
      CountWithout(a, 0, lo, hi);
      CountWithout(b, k, lo, hi);
      WithoutOne(a, 0);
      WithoutOne(b, k);
      CountPermuted(a[..0] + a[1..], b[..k] + b[k + 1..], lo, hi);
    }
  }

  lemma {:induction false} CountAtMost(s: seq<nat>, lo: nat, hi: nat)
    ensures CountIn(s, lo, hi) <= |s|
    ensures (forall i :: 0 <= i < |s| ==> !(lo <= s[i] <= hi)) ==> CountIn(s, lo, hi) == 0
  {
    if s != [] {
      CountAtMost(s[1..], lo, hi);
    }
  }

  lemma CountSplit(t: seq<nat>, k: nat, lo: nat, hi: nat)
    requires k <= |t|
    ensures CountIn(t, lo, hi) == CountIn(t[..k], lo, hi) + CountIn(t[k..], lo, hi)
  {
    assert t == t[..k] + t[k..];
    CountConcat(t[..k], t[k..], lo, hi);
  }

  /** In a sorted list, an element below `lo` rules out itself and all before it ... */
  lemma SortedBelow(t: seq<nat>, k: nat, lo: nat, hi: nat)
    requires IsSorted(t) && k < |t| && t[k] < lo
    ensures CountIn(t, lo, hi) <= |t| - k - 1
  {
    CountSplit(t, k + 1, lo, hi);
    CountAtMost(t[..k + 1], lo, hi);
    CountAtMost(t[k + 1..], lo, hi);
  }

  /** ... and one above `hi`, itself and all after it. */
  lemma SortedAbove(t: seq<nat>, k: nat, lo: nat, hi: nat)
    requires IsSorted(t) && k < |t| && t[k] > hi
    ensures CountIn(t, lo, hi) <= k
  {
    CountSplit(t, k, lo, hi);
    CountAtMost(t[..k], lo, hi);
    CountAtMost(t[k..], lo, hi);
  }

  lemma SortedOutside(t: seq<nat>, k: nat, lo: nat, hi: nat)
    requires IsSorted(t) && k < |t|
    ensures t[k] < lo ==> CountIn(t, lo, hi) <= |t| - k - 1
    ensures t[k] > hi ==> CountIn(t, lo, hi) <= k
  {
    if t[k] < lo { SortedBelow(t, k, lo, hi); }
    if t[k] > hi { SortedAbove(t, k, lo, hi); }
  }

  /** If strictly more than half of the reports lie in [lo, hi], so does the median. */
  lemma MedianRobust(s: seq<nat>, lo: nat, hi: nat)
    requires 2 * CountIn(s, lo, hi) > |s|
    ensures lo <= MedianOf(s) <= hi
  {
    var t, n := SortedOf(s), |s|;
    SortedOfSorts(s);
    SortedOfLength(s);
    CountPermuted(s, t, lo, hi);
    CountAtMost(s, lo, hi);
    SortedOutside(t, n / 2, lo, hi);
    if n % 2 == 0 {
      SortedOutside(t, n / 2 - 1, lo, hi);
    }
  }

  /** Half is not enough: one honest report of two leaves the median free. */
  lemma HalfIsNotEnough(lo: nat, x: nat)
    requires x > lo + 1
    ensures 2 * CountIn([lo, x], lo, lo) == |[lo, x]| && MedianOf([lo, x]) > lo
  {
    assert [lo, x][1..] == [x] && [x][1..] == [];
    assert SortedOf([x]) == [x];
    assert SortedOf([lo, x]) == [lo, x];
    assert CountIn([x], lo, lo) == 0;
  }

  // ---------- The sort ----------

  /** Moves element `i` down to its place among the first `i`, by adjacent swaps. */
  method Sink(a: array<nat>, i: nat)
    requires i < a.Length && IsSorted(a[..i])
    modifies a
    ensures IsSorted(a[..i + 1]) && a[i + 1..] == old(a[i + 1..])
    ensures multiset(a[..]) == multiset(old(a[..]))
  {
    var j := i;
    while j > 0
      invariant 0 <= j <= i
      invariant forall p, q :: 0 <= p < q <= i && q != j ==> a[p] <= a[q]
      invariant a[i + 1..] == old(a[i + 1..])
      invariant multiset(a[..]) == multiset(old(a[..]))
    {
      if a[j - 1] > a[j] {
        a[j - 1], a[j] := a[j], a[j - 1];
        j := j - 1;
      } else {
        break;
      }
    }
  }

  method InsertionSort(a: array<nat>)
    modifies a
    ensures a[..] == SortedOf(old(a[..]))
  {
    ghost var input := a[..];
    var n := a.Length;
    var i := 1;
    while i < n
      invariant 1 <= i && (n > 0 ==> i <= n)
      invariant i <= n ==> IsSorted(a[..i])
      invariant multiset(a[..]) == multiset(input)
    {
      Sink(a, i);
      i := i + 1;
    }
    assert IsSorted(a[..]) by { if n > 0 { assert a[..] == a[..n]; } }
    SortedOfSorts(input);
    SortedUnique(a[..], SortedOf(input));
  }

  /** `get_median_off_chain` once the fresh prices are collected. */
  method ComputeMedian(prices: seq<nat>) returns (m: nat)
    ensures m == MedianOf(prices)
  {
    var n := |prices|;
    if n == 0 { return 0; }
    var a := new nat[n](i requires 0 <= i < n => prices[i]);
    assert a[..] == prices;
    InsertionSort(a);
    SortedOfLength(prices);
    var mid := n / 2;
    if n % 2 == 1 {
      m := a[mid];
    } else {
      m := (a[mid - 1] + a[mid]) / 2;
    }
  }
}
