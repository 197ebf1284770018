/** Sequence helpers that stand for the JavaScript collection idioms the
    dashboard uses: plain objects used as insertion-ordered dictionaries
    (`acc[k] = (acc[k] || 0) + x`, `Object.entries`), `Array.from(new
    Set(xs))`, `filter`, `slice(0, n)` and a stable descending `sort`. */
module Collections {

  datatype Option<T> = None | Some(value: T)

  /** One own property of a plain object used as a dictionary. A dictionary
      is a sequence of entries in insertion order, which is the order
      `Object.entries` reports for keys that are not array indices. */
  datatype Entry = Entry(key: string, value: int)

  predicate Distinct<T(==)>(s: seq<T>) {
    forall i, j | 0 <= i < j < |s| :: s[i] != s[j]
  }

  function Keys(d: seq<Entry>): (ks: seq<string>)
    ensures |ks| == |d|
    ensures forall i | 0 <= i < |d| :: ks[i] == d[i].key
  {
    seq(|d|, i requires 0 <= i < |d| => d[i].key)
  }

  function Values(d: seq<Entry>): (vs: seq<int>)
    ensures |vs| == |d|
    ensures forall i | 0 <= i < |d| :: vs[i] == d[i].value
  {
    seq(|d|, i requires 0 <= i < |d| => d[i].value)
  }

  /** `d[k] || 0`: the value stored under `k`, or 0 when `k` is absent. */
  function Lookup(d: seq<Entry>, k: string): int {
    if d == [] then 0
    else if d[0].key == k then d[0].value
    else Lookup(d[1..], k)
  }

  /** `d[k] = (d[k] || 0) + delta`. */
  function Bump(d: seq<Entry>, k: string, delta: int): seq<Entry> {
    if d == [] then [Entry(k, delta)]
    else if d[0].key == k then [Entry(k, d[0].value + delta)] + d[1..]
    else [d[0]] + Bump(d[1..], k, delta)
  }

  /** An existing key keeps its place and grows by `delta`; a new key is
      appended with value `delta`; every other key keeps its value. */
  lemma BumpMeaning(d: seq<Entry>, k: string, delta: int)
    ensures Keys(Bump(d, k, delta)) == if k in Keys(d) then Keys(d) else Keys(d) + [k]
    ensures forall k' :: Lookup(Bump(d, k, delta), k') == Lookup(d, k') + (if k' == k then delta else 0)
  {
    BumpKeys(d, k, delta);
    forall k' ensures Lookup(Bump(d, k, delta), k') == Lookup(d, k') + (if k' == k then delta else 0) {
      BumpLookup(d, k, delta, k');
    }
  }

  lemma {:induction false} BumpKeys(d: seq<Entry>, k: string, delta: int)
    ensures Keys(Bump(d, k, delta)) == if k in Keys(d) then Keys(d) else Keys(d) + [k]
  {
    if d != [] && d[0].key != k {
      BumpKeys(d[1..], k, delta);
      assert Keys(d) == [d[0].key] + Keys(d[1..]);
      assert Keys(Bump(d, k, delta)) == [d[0].key] + Keys(Bump(d[1..], k, delta));
    }
  }

  lemma {:induction false} BumpLookup(d: seq<Entry>, k: string, delta: int, k': string)
    ensures Lookup(Bump(d, k, delta), k') == Lookup(d, k') + (if k' == k then delta else 0)
  {
    if d != [] {
      var b := Bump(d, k, delta);
      if d[0].key == k {
        assert b[0] == Entry(k, d[0].value + delta) && b[1..] == d[1..];
      } else {
        BumpLookup(d[1..], k, delta, k');
        assert b[0] == d[0] && b[1..] == Bump(d[1..], k, delta);
      }
    }
  }

  /** With distinct keys, looking an entry's key up finds that entry. */
  lemma {:induction false} LookupDistinct(d: seq<Entry>, i: nat)
    requires Distinct(Keys(d))
    requires i < |d|
    ensures Lookup(d, d[i].key) == d[i].value
  {
    if i > 0 {
      assert Keys(d)[0] != Keys(d)[i];
      assert Keys(d[1..]) == Keys(d)[1..];
      LookupDistinct(d[1..], i - 1);
    }
  }

  /** The sum of a dictionary's values. */
  function SumValues(d: seq<Entry>): int {
    if d == [] then 0 else d[0].value + SumValues(d[1..])
  }

  lemma {:induction false} SumValuesBump(d: seq<Entry>, k: string, delta: int)
    ensures SumValues(Bump(d, k, delta)) == SumValues(d) + delta
  {
    if d != [] && d[0].key != k {
      SumValuesBump(d[1..], k, delta);
      assert Bump(d, k, delta)[1..] == Bump(d[1..], k, delta);
    } else if d != [] {
      assert Bump(d, k, delta)[1..] == d[1..];
    }
  }

  /** Number of occurrences of `x` in `s`. */
  function Count<T(==)>(s: seq<T>, x: T): (n: nat)
    ensures n <= |s|
    ensures n > 0 <==> x in s
  {
    if s == [] then 0
    else
      assert s == s[..|s| - 1] + [s[|s| - 1]];
      Count(s[..|s| - 1], x) + (if s[|s| - 1] == x then 1 else 0)
  }

  /** `s.indexOf(x)`, except that a missing `x` gives `|s|` instead of -1. */
  function IndexOf<T(==)>(s: seq<T>, x: T): (i: nat)
    ensures i <= |s|
    ensures i < |s| <==> x in s
    ensures i < |s| ==> s[i] == x
    ensures x !in s[..i]
  {
    if s == [] then 0
    else if s[0] == x then 0
    else
      var i := 1 + IndexOf(s[1..], x);
      assert s[..i] == [s[0]] + s[1..][..i - 1];
      i
  }

  lemma {:induction false} IndexOfAppend<T>(s: seq<T>, t: seq<T>, x: T)
    ensures IndexOf(s + t, x) == if x in s then IndexOf(s, x) else |s| + IndexOf(t, x)
  {
    if s != [] {
      assert (s + t)[1..] == s[1..] + t;
      IndexOfAppend(s[1..], t, x);
    } else {
      assert s + t == t;
    }
  }

  /** `Array.from(new Set(s))`: every value of `s` once, at the place of its
      first occurrence. */
  function Dedup<T(==)>(s: seq<T>): (r: seq<T>)
    ensures forall x | x in r :: x in s
    ensures forall x | x in s :: x in r
    ensures Distinct(r)
  {
    if s == [] then []
    else
      var init, last := s[..|s| - 1], s[|s| - 1];
      assert s == init + [last];
      var d := Dedup(init);
      if last in d then d else d + [last]
  }

  /** The three facts that pin `Dedup` down: it holds exactly the values of
      `s`, each once, in the order of their first occurrence in `s`. */
  /** Appending a value adds it at the end unless it was already there. */
  lemma DedupSnoc<T>(s: seq<T>, x: T)
    ensures Dedup(s + [x]) == if x in Dedup(s) then Dedup(s) else Dedup(s) + [x]
  {
    assert (s + [x])[..|s + [x]| - 1] == s;
  }

  lemma {:induction false} DedupFirstSeenOrder<T>(s: seq<T>)
    ensures forall i, j | 0 <= i < j < |Dedup(s)| :: IndexOf(s, Dedup(s)[i]) < IndexOf(s, Dedup(s)[j])
  {
    if s != [] {
      var init, last := s[..|s| - 1], s[|s| - 1];
      assert s == init + [last];
      DedupFirstSeenOrder(init);
      var d := Dedup(init);
      forall y | y in init ensures IndexOf(s, y) == IndexOf(init, y) {
        IndexOfAppend(init, [last], y);
      }
      if last !in d {
        IndexOfAppend(init, [last], last);
        forall i | 0 <= i < |d| ensures IndexOf(s, d[i]) < IndexOf(s, last) {
          assert d[i] in init;
        }
      }
    }
  }

  /** `s.filter(f)`. */
  function Filter<T>(s: seq<T>, f: T -> bool): (r: seq<T>)
    ensures |r| <= |s|
    ensures forall x | x in r :: x in s && f(x)
    ensures forall x | x in s && f(x) :: x in r
    ensures |r| == |s| <==> forall x | x in s :: f(x)
    ensures r == [] <==> forall x | x in s :: !f(x)
  {
    if s == [] then []
    else (if f(s[0]) then [s[0]] else []) + Filter(s[1..], f)
  }

  /** `a` is `b` with some elements left out, the rest in the same order. */
  predicate IsSubsequence<T(==)>(a: seq<T>, b: seq<T>)
    decreases |b|
  {
    a == [] ||
    (b != [] && ((a[0] == b[0] && IsSubsequence(a[1..], b[1..])) || IsSubsequence(a, b[1..])))
  }

  lemma {:induction false} FilterIsSubsequence<T>(s: seq<T>, f: T -> bool)
    ensures IsSubsequence(Filter(s, f), s)
  {
    if s != [] {
      FilterIsSubsequence(s[1..], f);
      if f(s[0]) {
        assert Filter(s, f) == [s[0]] + Filter(s[1..], f);
      } else {
        assert Filter(s, f) == Filter(s[1..], f);
      }
    }
  }

  /** A filter that rejects nothing keeps the sequence as it is. */
  lemma {:induction false} FilterKeepsAll<T>(s: seq<T>, f: T -> bool)
    requires forall x | x in s :: f(x)
    ensures Filter(s, f) == s
  {
    if s != [] {
      FilterKeepsAll(s[1..], f);
    }
  }

  /** `s.slice(0, n)`. */
  function Take<T>(s: seq<T>, n: nat): (r: seq<T>)
    ensures |r| == if |s| <= n then |s| else n
    ensures r == s[..|r|]
  {
    if |s| <= n then s else s[..n]
  }

  /** Inserts `x` in front of the first element whose value is not larger:
      ties go after `x`, which came first in the input. */
  function InsertDesc(x: Entry, t: seq<Entry>): (r: seq<Entry>)
    ensures multiset(r) == multiset(t) + multiset{x}
  {
    if t == [] || t[0].value <= x.value then [x] + t
    else
      assert t == [t[0]] + t[1..];
      [t[0]] + InsertDesc(x, t[1..])
  }

  /** `Array.prototype.sort` with comparator `(a, b) => b.value - a.value`,
      which the language requires to be stable: descending by value,
      entries with equal values in their input order. */
  function SortDesc(s: seq<Entry>): (r: seq<Entry>)
    ensures multiset(r) == multiset(s)
  {
    if s == [] then []
    else
      assert s == [s[0]] + s[1..];
      InsertDesc(s[0], SortDesc(s[1..]))
  }

  predicate Descending(s: seq<Entry>) {
    forall i, j | 0 <= i < j < |s| :: s[i].value >= s[j].value
  }

  lemma {:induction false} InsertDescKeepsDescending(x: Entry, t: seq<Entry>)
    requires Descending(t)
    ensures Descending(InsertDesc(x, t))
  {
    if t != [] && t[0].value > x.value {
      InsertDescKeepsDescending(x, t[1..]);
      var r := InsertDesc(x, t);
      forall j | 1 <= j < |r| ensures r[0].value >= r[j].value {
        assert r[j] in multiset(InsertDesc(x, t[1..]));
        assert r[j] == x || r[j] in t[1..];
      }
    }
  }

  lemma {:induction false} SortDescIsDescending(s: seq<Entry>)
    ensures Descending(SortDesc(s))
  {
    if s != [] {
      SortDescIsDescending(s[1..]);
      InsertDescKeepsDescending(s[0], SortDesc(s[1..]));
    }
  }

  /** `a` may precede `b` in a stable descending order whose input was in
      the order of `order`: larger value first, equal values by rank. */
  predicate Before(a: Entry, b: Entry, order: seq<string>) {
    a.value > b.value || (a.value == b.value && IndexOf(order, a.key) < IndexOf(order, b.key))
  }

  predicate SortedStable(s: seq<Entry>, order: seq<string>) {
    forall i, j | 0 <= i < j < |s| :: Before(s[i], s[j], order)
  }

  /** The keys of `s` appear in `s` in the order they have in `order`. */
  predicate RankIncreasing(s: seq<Entry>, order: seq<string>) {
    forall i, j | 0 <= i < j < |s| :: IndexOf(order, s[i].key) < IndexOf(order, s[j].key)
  }

  lemma {:induction false} InsertDescStable(x: Entry, t: seq<Entry>, order: seq<string>)
    requires SortedStable(t, order)
    requires forall y | y in t :: IndexOf(order, x.key) < IndexOf(order, y.key)
    ensures SortedStable(InsertDesc(x, t), order)
  {
    var r := InsertDesc(x, t);
    if t == [] || t[0].value <= x.value {
      forall j | 1 <= j < |r| ensures Before(r[0], r[j], order) {
        assert r[j] == t[j - 1] && t[j - 1] in t;
        if j > 1 {
          assert Before(t[0], t[j - 1], order);
        }
      }
      forall i, j | 1 <= i < j < |r| ensures Before(r[i], r[j], order) {
        assert Before(t[i - 1], t[j - 1], order);
      }
    } else {
      var rest := InsertDesc(x, t[1..]);
      InsertDescStable(x, t[1..], order);
      assert r == [t[0]] + rest;
      forall j | 1 <= j < |r| ensures Before(r[0], r[j], order) {
        assert r[j] in multiset(rest);
        if r[j] != x {
          assert r[j] in t[1..];
          var k :| 0 <= k < |t[1..]| && t[1..][k] == r[j];
          assert Before(t[0], t[k + 1], order);
        }
      }
      forall i, j | 1 <= i < j < |r| ensures Before(r[i], r[j], order) {
        assert Before(rest[i - 1], rest[j - 1], order);
      }
    }
  }

  /** The sort is stable: when the input is ordered as `order` lists its
      keys, equal values come out in that order. */
  lemma {:induction false} SortDescStable(s: seq<Entry>, order: seq<string>)
    requires RankIncreasing(s, order)
    ensures SortedStable(SortDesc(s), order)
  {
    if s != [] {
      SortDescStable(s[1..], order);
      var t := SortDesc(s[1..]);
      forall y | y in t ensures IndexOf(order, s[0].key) < IndexOf(order, y.key) {
        assert y in multiset(t);
        var k :| 0 <= k < |s[1..]| && s[1..][k] == y;
        assert s[k + 1] == y;
      }
      InsertDescStable(s[0], t, order);
    }
  }

  /** What `slice(0, n)` of a descending sort leaves out is never larger than
      the last element it keeps, and nothing is left out unless `n` elements
      are kept. */
  lemma TopOmitsOnlySmaller(s: seq<Entry>, n: nat, e: Entry)
    requires n > 0
    requires e in s
    requires e !in Take(SortDesc(s), n)
    ensures |Take(SortDesc(s), n)| == n
    ensures e.value <= Take(SortDesc(s), n)[n - 1].value
  {
    var sorted := SortDesc(s);
    SortDescIsDescending(s);
    assert e in multiset(sorted);
    var k :| 0 <= k < |sorted| && sorted[k] == e;
    var top := Take(sorted, n);
    assert forall i | 0 <= i < |top| :: top[i] == sorted[i];
    assert k >= |top|;
  }
}
