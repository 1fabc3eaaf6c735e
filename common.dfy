/** Vocabulary shared by the analysis scripts: optional values, the
    order-preserving list comprehensions that Python's `[f(x) for x in s if p(x)]`
    builds, ASCII lower-casing, the substring test `sub in s`, and integer sums
    with the bounds that make an average meaningful. */
module Common {

  /** A field that may be missing from a product record. */
  datatype Option<+T> = None | Some(value: T)

  // ---------------------------------------------------------------------------
  // Order-preserving selection and projection
  // ---------------------------------------------------------------------------

  /** The elements of `s` that satisfy `p`, in the order of `s`: the list a
      loop builds when it appends every element that passes the test. */
  function Filter<T>(p: T -> bool, s: seq<T>): (r: seq<T>)
    ensures |r| <= |s|
  {
    if s == [] then []
    else Filter(p, s[..|s| - 1]) + (if p(s[|s| - 1]) then [s[|s| - 1]] else [])
  }

  /** `[f(x) for x in s]`. */
  function Map<T, U>(f: T -> U, s: seq<T>): (r: seq<U>)
  {
    if s == [] then [] else Map(f, s[..|s| - 1]) + [f(s[|s| - 1])]
  }

  /** An element is selected exactly when it occurs in the input and passes the test. */
  lemma {:induction false} FilterMembership<T>(p: T -> bool, s: seq<T>, x: T)
    ensures x in Filter(p, s) <==> x in s && p(x)
  {
    if s != [] {
      var init, last := s[..|s| - 1], s[|s| - 1];
      assert s == init + [last];
      FilterMembership(p, init, x);
    }
  }

  /** A weaker test selects at least as many elements: the count behind
      "selected <= counted" statements. */
  lemma {:induction false} FilterWeakerCount<T>(p: T -> bool, q: T -> bool, s: seq<T>)
    requires forall x :: x in s && p(x) ==> q(x)
    ensures |Filter(p, s)| <= |Filter(q, s)|
  {
    if s != [] {
      var init := s[..|s| - 1];
      assert forall x :: x in init ==> x in s;
      FilterWeakerCount(p, q, init);
    }
  }

  /** Projection keeps the length. */
  lemma {:induction false} MapLength<T, U>(f: T -> U, s: seq<T>)
    ensures |Map(f, s)| == |s|
  {
    if s != [] {
      MapLength(f, s[..|s| - 1]);
    }
  }

  /** A value is in the projection exactly when some input element projects to it. */
  lemma {:induction false} MapMembership<T, U>(f: T -> U, s: seq<T>, y: U)
    ensures y in Map(f, s) <==> exists x :: x in s && f(x) == y
  {
    if s != [] {
      var init, last := s[..|s| - 1], s[|s| - 1];
      assert s == init + [last];
      MapMembership(f, init, y);
      if y == f(last) {
        assert last in s;
      }
    }
  }

  /** Appending one element to the input: the one step of every loop that
      builds a selection. */
  lemma FilterSnoc<T>(p: T -> bool, s: seq<T>, x: T)
    ensures Filter(p, s + [x]) == Filter(p, s) + (if p(x) then [x] else [])
  {
    assert (s + [x])[..|s|] == s;
  }

  lemma MapSnoc<T, U>(f: T -> U, s: seq<T>, x: T)
    ensures Map(f, s + [x]) == Map(f, s) + [f(x)]
  {
    assert (s + [x])[..|s|] == s;
  }

  // ---------------------------------------------------------------------------
  // Text
  // ---------------------------------------------------------------------------

  /** `str.lower()` restricted to ASCII letters. */
  function LowerChar(c: char): char
  {
    if 'A' <= c <= 'Z' then (c as int + 32) as char else c
  }

  function Lower(s: string): string
  {
    seq(|s|, i requires 0 <= i < |s| => LowerChar(s[i]))
  }

  /** Python's `sub in s` for strings. */
  predicate Contains(s: string, sub: string)
  {
    exists i :: 0 <= i <= |s| && OccursAt(s, sub, i)
  }

  /** `sub` starts at position `i` of `s`. */
  predicate OccursAt(s: string, sub: string, i: nat)
  {
    i + |sub| <= |s| && s[i..i + |sub|] == sub
  }

  /** A witness position makes the substring test true. */
  lemma ContainsAt(s: string, sub: string, i: nat)
    requires OccursAt(s, sub, i)
    ensures Contains(s, sub)
  {
  }

  // ---------------------------------------------------------------------------
  // Sums, extremes and the average
  // ---------------------------------------------------------------------------

  function Sum(xs: seq<int>): int
  {
    if xs == [] then 0 else Sum(xs[..|xs| - 1]) + xs[|xs| - 1]
  }

  /** Python's `min(xs)`. */
  function Min(xs: seq<int>): (m: int)
    requires |xs| > 0
    ensures m in xs && forall x :: x in xs ==> m <= x
  {
    if |xs| == 1 then xs[0]
    else
      var init := xs[..|xs| - 1];
      assert xs == init + [xs[|xs| - 1]];
      var m := Min(init);
      if xs[|xs| - 1] < m then xs[|xs| - 1] else m
  }

  /** Python's `max(xs)`. */
  function Max(xs: seq<int>): (m: int)
    requires |xs| > 0
    ensures m in xs && forall x :: x in xs ==> x <= m
  {
    if |xs| == 1 then xs[0]
    else
      var init := xs[..|xs| - 1];
      assert xs == init + [xs[|xs| - 1]];
      var m := Max(init);
      if xs[|xs| - 1] > m then xs[|xs| - 1] else m
  }

  /** Any lower bound of every element, times the count, bounds the sum from
      below; any upper bound bounds it from above. */
  lemma {:induction false} SumBetween(xs: seq<int>, lo: int, hi: int)
    requires forall x :: x in xs ==> lo <= x <= hi
    ensures |xs| * lo <= Sum(xs) <= |xs| * hi
  {
    if xs != [] {
      var init := xs[..|xs| - 1];
      assert xs == init + [xs[|xs| - 1]];
      assert forall x :: x in init ==> x in xs;
      SumBetween(init, lo, hi);
      assert xs[|xs| - 1] in xs;
      assert |xs| * lo == |init| * lo + lo;
      assert |xs| * hi == |init| * hi + hi;
    }
  }

  /** `sum(xs) / len(xs)` with Python's true division: it lies between the
      smallest and the largest element. */
  function Average(xs: seq<int>): (r: real)
    requires |xs| > 0
    ensures Min(xs) as real <= r <= Max(xs) as real
  {
    SumBetween(xs, Min(xs), Max(xs));
    AverageBetween(Sum(xs), |xs|, Min(xs), Max(xs));
    Sum(xs) as real / |xs| as real
  }

  /** Dividing `n * lo <= s <= n * hi` by a positive `n`. */
  lemma AverageBetween(s: int, n: int, lo: int, hi: int)
    requires n > 0 && n * lo <= s <= n * hi
    ensures lo as real <= s as real / n as real <= hi as real
  {
    var r := s as real / n as real;
    assert r * n as real == s as real;
    assert (n * lo) as real == n as real * lo as real;
    assert (n * hi) as real == n as real * hi as real;
  }
}
