/** Values shared by the dashboard and the snapshot generator: optional values,
    the string-keyed blocks of a station record, and sequence helpers with
    their lemmas (counting, first occurrences, sums and extrema). */
module Common {

  datatype Option<+T> = None | Some(value: T)

  /** A block of a station record (`actuales`, `diarios`, `mensuales`, ...):
      a Python dict / JSON object from field name to text, where a field may
      hold null (Python `None`). A key that is not in the map is undefined. */
  type Block = map<string, Option<string>>

  /** JavaScript truthiness of `block[key]` (equally, Python's
      `block.get(key) not in [None, ""]`): present, not null, not empty. */
  predicate Truthy(b: Block, key: string)
  {
    key in b && b[key].Some? && b[key].value != ""
  }

  /** No element occurs twice. */
  predicate NoDup<T(==)>(s: seq<T>)
  {
    forall i, j :: 0 <= i < j < |s| ==> s[i] != s[j]
  }

  /** Number of occurrences of `x` in `s`. */
  function Count<T(==)>(s: seq<T>, x: T): nat
  {
    if s == [] then 0
    else Count(s[..|s| - 1], x) + (if s[|s| - 1] == x then 1 else 0)
  }

  /** An element that does not occur is counted zero times. */
  lemma {:induction false} CountAbsent<T>(s: seq<T>, x: T)
    requires x !in s
    ensures Count(s, x) == 0
  {
    if s != [] {
      CountAbsent(s[..|s| - 1], x);
    }
  }

  /** In a sequence without duplicates an element occurs at most once. */
  lemma {:induction false} CountNoDup<T>(s: seq<T>, x: T)
    requires NoDup(s)
    ensures Count(s, x) == if x in s then 1 else 0
  {
    if s != [] {
      var init, last := s[..|s| - 1], s[|s| - 1];
      assert s == init + [last];
      assert NoDup(init);
      assert last !in init;
      CountNoDup(init, x);
    }
  }

  /** Index of the first occurrence of `x` in `s`. */
  function FirstIndex<T(==)>(s: seq<T>, x: T): (i: nat)
    requires x in s
    ensures i < |s| && s[i] == x && x !in s[..i]
  {
    if s[0] == x then 0
    else
      assert x in s[1..];
      var k := FirstIndex(s[1..], x);
      assert s[..k + 1] == [s[0]] + s[1..][..k];
      k + 1
  }

  /** The elements of `s` in order of first occurrence: the key order of a
      JavaScript object (or Python dict) filled by walking `s` and inserting
      each key the first time it is seen. */
  function Distinct<T(==,!new)>(s: seq<T>): (r: seq<T>)
    ensures forall x :: x in r <==> x in s
    ensures NoDup(r)
  {
    if s == [] then []
    else
      var init, last := s[..|s| - 1], s[|s| - 1];
      assert s == init + [last];
      if last in init then Distinct(init) else Distinct(init) + [last]
  }

  /** The first occurrence of an element in a prefix is its first occurrence
      in the whole sequence. */
  lemma FirstIndexPrefix<T>(s: seq<T>, n: nat, x: T)
    requires n <= |s| && x in s[..n]
    ensures x in s && FirstIndex(s, x) == FirstIndex(s[..n], x)
  {
    var i := FirstIndex(s[..n], x);
    assert s[..n][i] == x && s[..n][..i] == s[..i];
    var j := FirstIndex(s, x);
    assert forall k :: 0 <= k < i ==> s[k] != x by {
      forall k | 0 <= k < i ensures s[k] != x { assert s[..i][k] == s[k]; }
    }
    assert forall k :: 0 <= k < j ==> s[k] != x by {
      forall k | 0 <= k < j ensures s[k] != x { assert s[..j][k] == s[k]; }
    }
  }

  /** Distinct lists elements in increasing order of their first occurrence. */
  lemma {:induction false} DistinctOrder<T(!new)>(s: seq<T>, j: nat, k: nat)
    requires j < k < |Distinct(s)|
    ensures FirstIndex(s, Distinct(s)[j]) < FirstIndex(s, Distinct(s)[k])
  {
    var init, last := s[..|s| - 1], s[|s| - 1];
    assert s == init + [last];
    assert init == s[..|s| - 1];
    var d := Distinct(s);
    if last in init {
      DistinctOrder(init, j, k);
      FirstIndexPrefix(s, |s| - 1, d[j]);
      FirstIndexPrefix(s, |s| - 1, d[k]);
    } else if k < |Distinct(init)| {
      DistinctOrder(init, j, k);
      FirstIndexPrefix(s, |s| - 1, d[j]);
      FirstIndexPrefix(s, |s| - 1, d[k]);
    } else {
      // d[k] is `last`, which first occurs at the very end
      assert d[k] == last;
      assert d[j] in Distinct(init);
      FirstIndexPrefix(s, |s| - 1, d[j]);
      assert last !in s[..|s| - 1];
      assert FirstIndex(s, last) == |s| - 1;
    }
  }

  /** The values of the `Some` entries, in order: what a loop that appends
      each present result to a list collects. */
  function Somes<T>(xs: seq<Option<T>>): (r: seq<T>)
    ensures |r| <= |xs|
  {
    if xs == [] then []
    else
      var n := |xs| - 1;
      Somes(xs[..n]) + (if xs[n].Some? then [xs[n].value] else [])
  }

  lemma {:induction false} SomesAppend<T>(xs: seq<Option<T>>, ys: seq<Option<T>>)
    ensures Somes(xs + ys) == Somes(xs) + Somes(ys)
  {
    if ys == [] {
      assert xs + ys == xs;
    } else {
      var n := |ys| - 1;
      assert (xs + ys)[..|xs + ys| - 1] == xs + ys[..n];
      SomesAppend(xs, ys[..n]);
    }
  }

  lemma {:induction false} SomesComplete<T>(xs: seq<Option<T>>, i: nat)
    requires i < |xs| && xs[i].Some?
    ensures xs[i].value in Somes(xs)
  {
    var n := |xs| - 1;
    if i < n {
      assert xs[..n][i] == xs[i];
      SomesComplete(xs[..n], i);
    }
  }

  lemma {:induction false} SomesFrom<T>(xs: seq<Option<T>>, x: T)
    requires x in Somes(xs)
    ensures exists i :: 0 <= i < |xs| && xs[i] == Some(x)
  {
    var n := |xs| - 1;
    if x in Somes(xs[..n]) {
      SomesFrom(xs[..n], x);
      var i :| 0 <= i < n && xs[..n][i] == Some(x);
      assert xs[i] == Some(x);
    } else {
      assert xs[n] == Some(x);
    }
  }

  /** Left-to-right sum, `values.reduce((a, b) => a + b, 0)`. */
  function Sum(s: seq<real>): real
  {
    if s == [] then 0.0 else Sum(s[..|s| - 1]) + s[|s| - 1]
  }

  /** `Math.min(...s)` on a non-empty sequence. */
  function SeqMin(s: seq<real>): (m: real)
    requires |s| > 0
    ensures m in s
    ensures forall x :: x in s ==> m <= x
  {
    if |s| == 1 then s[0]
    else
      var init, last := s[..|s| - 1], s[|s| - 1];
      assert s == init + [last];
      var m := SeqMin(init);
      if last < m then last else m
  }

  /** `Math.max(...s)` on a non-empty sequence. */
  function SeqMax(s: seq<real>): (m: real)
    requires |s| > 0
    ensures m in s
    ensures forall x :: x in s ==> x <= m
  {
    if |s| == 1 then s[0]
    else
      var init, last := s[..|s| - 1], s[|s| - 1];
      assert s == init + [last];
      var m := SeqMax(init);
      if last > m then last else m
  }

  /** `n` copies of `x` added up. */
  function Times(n: nat, x: real): (r: real)
    ensures r == n as real * x
  {
    if n == 0 then 0.0
    else
      var r := Times(n - 1, x) + x;
      assert n as real * x == (n - 1) as real * x + x;
      r
  }

  /** A sum of values of at least `lo` is at least n * lo. */
  lemma {:induction false} SumAtLeast(s: seq<real>, lo: real)
    requires forall x :: x in s ==> lo <= x
    ensures Times(|s|, lo) <= Sum(s)
  {
    if s != [] {
      var init, last := s[..|s| - 1], s[|s| - 1];
      assert s == init + [last] && last in s;
      assert forall x :: x in init ==> x in s;
      SumAtLeast(init, lo);
    }
  }

  /** A sum of values of at most `hi` is at most n * hi. */
  lemma {:induction false} SumAtMost(s: seq<real>, hi: real)
    requires forall x :: x in s ==> x <= hi
    ensures Sum(s) <= Times(|s|, hi)
  {
    if s != [] {
      var init, last := s[..|s| - 1], s[|s| - 1];
      assert s == init + [last] && last in s;
      assert forall x :: x in init ==> x in s;
      SumAtMost(init, hi);
    }
  }

  /** A non-empty sum of values below `hi` is below n * hi. */
  lemma {:induction false} SumBelow(s: seq<real>, hi: real)
    requires |s| > 0
    requires forall x :: x in s ==> x < hi
    ensures Sum(s) < Times(|s|, hi)
  {
    var init, last := s[..|s| - 1], s[|s| - 1];
    assert s == init + [last] && last in s;
    assert forall x :: x in init ==> x in s;
    if init != [] {
      SumBelow(init, hi);
    }
  }

  /** The mean of values in [lo, hi] lies in [lo, hi]. */
  lemma MeanBounds(s: seq<real>, lo: real, hi: real)
    requires |s| > 0
    requires forall x :: x in s ==> lo <= x <= hi
    ensures lo <= Sum(s) / |s| as real <= hi
  {
    SumAtLeast(s, lo);
    SumAtMost(s, hi);
    DivBounds(Sum(s), |s| as real, lo, hi);
  }

  lemma DivBounds(sum: real, n: real, lo: real, hi: real)
    requires n > 0.0 && n * lo <= sum <= n * hi
    ensures lo <= sum / n <= hi
  {
    var mean := sum / n;
    assert mean * n == sum;
    assert (mean - lo) * n >= 0.0 && (hi - mean) * n >= 0.0;
  }
}
