/**
 * Insertion-ordered sets, as JavaScript's `Set` keeps them: a sequence without
 * duplicates, where `add` appends an element only when it is not there yet.
 */
module Collections {

  /** No element occurs twice. */
  ghost predicate Distinct<T>(s: seq<T>) {
    forall i, j :: 0 <= i < j < |s| ==> s[i] != s[j]
  }

  /** The set of elements of a sequence. */
  function Elements<T>(s: seq<T>): set<T> {
    set x | x in s
  }

  /** `Set.prototype.add`: append `x` unless it is already present. */
  function SetAdd<T(==)>(s: seq<T>, x: T): (r: seq<T>)
    ensures s <= r
    ensures x in r
    ensures Elements(r) == Elements(s) + {x}
    ensures x in s ==> r == s
    ensures x !in s ==> r == s + [x]
    ensures Distinct(s) ==> Distinct(r)
  {
    if x in s then s else s + [x]
  }

  /**
   * `Array.from(new Set(xs))`: the elements of `xs` without duplicates, each
   * at the place of its first occurrence.
   */
  function Dedupe<T(==)>(xs: seq<T>): (r: seq<T>)
    ensures Distinct(r)
    ensures Elements(r) == Elements(xs)
    ensures forall k :: 0 <= k < |r| ==> r[k] in xs
    ensures |r| <= |xs|
  {
    if xs == [] then [] else SetAdd(Dedupe(xs[..|xs| - 1]), xs[|xs| - 1])
  }

  /** The index of the first occurrence of `x` in `s`. */
  function FirstIndex<T(==)>(s: seq<T>, x: T): (i: nat)
    requires x in s
    ensures i < |s| && s[i] == x
    ensures forall j :: 0 <= j < i ==> s[j] != x
  {
    if s[0] == x then 0 else 1 + FirstIndex(s[1..], x)
  }

  /** Appending elements does not move the first occurrence of an element already present. */
  lemma {:induction false} FirstIndexAppend<T>(s: seq<T>, t: seq<T>, x: T)
    requires x in s
    ensures x in s + t && FirstIndex(s + t, x) == FirstIndex(s, x)
  {
    if s[0] != x {
      assert (s + t)[1..] == s[1..] + t;
      FirstIndexAppend(s[1..], t, x);
    }
  }

  /**
   * `Dedupe` keeps first-occurrence order: an element that comes earlier in
   * the result occurs for the first time earlier in the input.
   */
  lemma {:induction false} DedupeKeepsFirstOccurrenceOrder<T>(xs: seq<T>, i: nat, j: nat)
    requires i < j < |Dedupe(xs)|
    ensures FirstIndex(xs, Dedupe(xs)[i]) < FirstIndex(xs, Dedupe(xs)[j])
  {
    var init, last := xs[..|xs| - 1], xs[|xs| - 1];
    assert xs == init + [last];
    var r, r' := Dedupe(xs), Dedupe(init);
    if last in init {
      assert r == r';
      DedupeKeepsFirstOccurrenceOrder(init, i, j);
      FirstIndexAppend(init, [last], r[i]);
      FirstIndexAppend(init, [last], r[j]);
    } else {
      assert r == r' + [last];
      FirstIndexAppend(init, [last], r[i]);
      if j < |r'| {
        DedupeKeepsFirstOccurrenceOrder(init, i, j);
        FirstIndexAppend(init, [last], r[j]);
      } else {
        assert r[j] == last;
        assert FirstIndex(xs, last) == |init|;
      }
    }
  }

  /** A sequence of distinct elements has as many elements as its set does. */
  lemma {:induction false} DistinctCardinality<T>(s: seq<T>)
    requires Distinct(s)
    ensures |Elements(s)| == |s|
  {
    if s != [] {
      var init := s[..|s| - 1];
      assert Distinct(init);
      DistinctCardinality(init);
      assert Elements(s) == Elements(init) + {s[|s| - 1]};
      assert s[|s| - 1] !in Elements(init);
    }
  }

  /** Deduplicating a sequence that has no duplicates gives it back unchanged. */
  lemma {:induction false} DedupeOfDistinct<T>(xs: seq<T>)
    requires Distinct(xs)
    ensures Dedupe(xs) == xs
  {
    if xs != [] {
      var init := xs[..|xs| - 1];
      assert Distinct(init);
      DedupeOfDistinct(init);
      assert xs[|xs| - 1] !in init;
      assert xs == init + [xs[|xs| - 1]];
    }
  }
}
