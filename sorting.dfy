/** Sorting and filtering as the list pages use them: `Array.prototype.filter`, and
    `Array.prototype.sort` with a comparator that compares one field (text through
    `localeCompare`, numbers by subtraction), negated or swapped for a descending
    sort; and the column-header click that toggles the direction. */
module Sorting {

  datatype Direction = Asc | Desc

  function Flip(d: Direction): Direction {
    if d == Asc then Desc else Asc
  }

  datatype SortState<F> = SortState(field: F, direction: Direction)

  /** A click on a column header: the current field flips its direction; any other
      field becomes current with the page's initial direction. */
  function Toggle<F(==)>(s: SortState<F>, f: F, initial: Direction): (r: SortState<F>)
    ensures r.field == f
    ensures s.field == f ==> r.direction == Flip(s.direction) && r.direction != s.direction
    ensures s.field != f ==> r.direction == initial
  {
    if s.field == f then SortState(f, Flip(s.direction)) else SortState(f, initial)
  }

  /** A sort key. `localeCompare` is modelled as code-point lexicographic order; a page
      never compares a text key with a number key. */
  datatype Key = Text(s: string) | Number(x: real)

  /** Three-way lexicographic comparison; a proper prefix comes first. */
  function LexCompare(a: string, b: string): int {
    if a == [] && b == [] then 0
    else if a == [] then -1
    else if b == [] then 1
    else if a[0] < b[0] then -1
    else if a[0] > b[0] then 1
    else LexCompare(a[1..], b[1..])
  }

  /** Three-way comparison of keys: `a.localeCompare(b)` or the sign of `a - b`. */
  function Compare(a: Key, b: Key): int {
    match (a, b)
    case (Text(x), Text(y)) => LexCompare(x, y)
    case (Number(x), Number(y)) => if x < y then -1 else if x > y then 1 else 0
    case (Number(_), Text(_)) => -1
    case (Text(_), Number(_)) => 1
  }

  lemma {:induction false} LexCompareAntisymmetric(a: string, b: string)
    ensures LexCompare(a, b) == -LexCompare(b, a)
    ensures LexCompare(a, b) == 0 <==> a == b
  {
    if a != [] && b != [] && a[0] == b[0] {
      LexCompareAntisymmetric(a[1..], b[1..]);
      if a[1..] == b[1..] {
        assert a == [a[0]] + a[1..] && b == [b[0]] + b[1..];
      }
    }
  }

  lemma {:induction false} LexCompareTransitive(a: string, b: string, c: string)
    requires LexCompare(a, b) <= 0 && LexCompare(b, c) <= 0
    ensures LexCompare(a, c) <= 0
  {
    if a != [] && b != [] && c != [] && a[0] == b[0] == c[0] {
      LexCompareTransitive(a[1..], b[1..], c[1..]);
    }
  }

  /** Comparing keys is antisymmetric and transitive: a total preorder that is in fact
      an order. */
  lemma CompareAntisymmetric(a: Key, b: Key)
    ensures Compare(a, b) == -Compare(b, a)
  {
    if a.Text? && b.Text? {
      LexCompareAntisymmetric(a.s, b.s);
    }
  }

  lemma CompareTransitive(a: Key, b: Key, c: Key)
    requires Compare(a, b) <= 0 && Compare(b, c) <= 0
    ensures Compare(a, c) <= 0
  {
    if a.Text? && b.Text? && c.Text? {
      LexCompareTransitive(a.s, b.s, c.s);
    }
  }

  /** `a` may precede `b` in a list sorted in direction `d`: the comparator
      (`multiplier * compare(a, b)`, or `compare(b, a)` for a descending sort) is not
      positive. */
  predicate Before(a: Key, b: Key, d: Direction) {
    if d == Asc then Compare(a, b) <= 0 else Compare(b, a) <= 0
  }

  /** Numbers ascend or descend by their value. */
  lemma NumbersBefore(a: real, b: real, d: Direction)
    ensures Before(Number(a), Number(b), d) <==> if d == Asc then a <= b else b <= a
  {
  }

  lemma BeforeTotal(a: Key, b: Key, d: Direction)
    ensures Before(a, b, d) || Before(b, a, d)
  {
    CompareAntisymmetric(a, b);
  }

  lemma BeforeTransitive(a: Key, b: Key, c: Key, d: Direction)
    requires Before(a, b, d) && Before(b, c, d)
    ensures Before(a, c, d)
  {
    if d == Asc {
      CompareTransitive(a, b, c);
    } else {
      CompareTransitive(c, b, a);
    }
  }

  ghost predicate Sorted<T>(s: seq<T>, key: T -> Key, d: Direction) {
    forall i, j :: 0 <= i < j < |s| ==> Before(key(s[i]), key(s[j]), d)
  }

  /** Inserts `x` before the first element it may precede, so that it stays ahead of
      the equal elements that came after it in the input. */
  function Insert<T>(x: T, s: seq<T>, key: T -> Key, d: Direction): seq<T> {
    if s == [] then [x]
    else if Before(key(x), key(s[0]), d) then [x] + s
    else [s[0]] + Insert(x, s[1..], key, d)
  }

  lemma {:induction false} InsertKeepsElements<T>(x: T, s: seq<T>, key: T -> Key, d: Direction)
    ensures multiset(Insert(x, s, key, d)) == multiset(s) + multiset{x}
  {
    if s != [] && !Before(key(x), key(s[0]), d) {
      InsertKeepsElements(x, s[1..], key, d);
      assert s == [s[0]] + s[1..];
    }
  }

  /** Inserting adds `x` and nothing else. */
  lemma {:induction false} InsertMembers<T>(x: T, s: seq<T>, key: T -> Key, d: Direction)
    ensures forall e :: e in Insert(x, s, key, d) ==> e == x || e in s
  {
    if s != [] && !Before(key(x), key(s[0]), d) {
      InsertMembers(x, s[1..], key, d);
      assert forall e :: e in s[1..] ==> e in s;
    }
  }

  lemma {:induction false} InsertKeepsSorted<T>(x: T, s: seq<T>, key: T -> Key, d: Direction)
    requires Sorted(s, key, d)
    ensures Sorted(Insert(x, s, key, d), key, d)
  {
    if s == [] {
    } else if Before(key(x), key(s[0]), d) {
      var r := [x] + s;
      forall i, j | 0 <= i < j < |r| ensures Before(key(r[i]), key(r[j]), d) {
        if i == 0 && j > 1 {
          BeforeTransitive(key(x), key(s[0]), key(s[j - 1]), d);
        }
      }
    } else {
      BeforeTotal(key(x), key(s[0]), d);
      var t := Insert(x, s[1..], key, d);
      InsertKeepsSorted(x, s[1..], key, d);
      InsertMembers(x, s[1..], key, d);
      forall e | e in t ensures Before(key(s[0]), key(e), d) {
        if e != x {
          var k :| 0 <= k < |s[1..]| && s[1..][k] == e;
          assert s[k + 1] == e;
        }
      }
      var r := [s[0]] + t;
      forall i, j | 0 <= i < j < |r| ensures Before(key(r[i]), key(r[j]), d) {
        if i == 0 {
          assert r[j] == t[j - 1] && t[j - 1] in t;
        } else {
          assert r[i] == t[i - 1] && r[j] == t[j - 1];
        }
      }
    }
  }

  /** Inserting the head into the sorted tail sorts the whole list. */
  lemma SortStep<T>(s: seq<T>, rest: seq<T>, key: T -> Key, d: Direction)
    requires s != [] && multiset(rest) == multiset(s[1..]) && Sorted(rest, key, d)
    ensures multiset(Insert(s[0], rest, key, d)) == multiset(s)
    ensures Sorted(Insert(s[0], rest, key, d), key, d)
  {
    InsertKeepsElements(s[0], rest, key, d);
    InsertKeepsSorted(s[0], rest, key, d);
    assert s == [s[0]] + s[1..];
  }

  /** `[...s].sort(comparator)`: a stable insertion sort on the key. */
  function SortBy<T>(s: seq<T>, key: T -> Key, d: Direction): (r: seq<T>)
    ensures multiset(r) == multiset(s)
    ensures Sorted(r, key, d)
  {
    if s == [] then []
    else
      var rest := SortBy(s[1..], key, d);
      SortStep(s, rest, key, d);
      Insert(s[0], rest, key, d)
  }

  /** `s.filter(p)` */
  function Filter<T>(s: seq<T>, p: T -> bool): (r: seq<T>)
    ensures |r| <= |s|
    ensures forall i :: 0 <= i < |r| ==> r[i] in s && p(r[i])
    ensures forall i :: 0 <= i < |s| && p(s[i]) ==> s[i] in r
  {
    if s == [] then []
    else if p(s[0]) then [s[0]] + Filter(s[1..], p)
    else Filter(s[1..], p)
  }

  /** Each element that passes the test is kept exactly as often as it occurs, and no
      other element is kept. */
  lemma {:induction false} FilterCount<T>(s: seq<T>, p: T -> bool)
    ensures forall x :: multiset(Filter(s, p))[x] == if p(x) then multiset(s)[x] else 0
  {
    if s != [] {
      FilterCount(s[1..], p);
      assert s == [s[0]] + s[1..];
    }
  }

  /** The elements kept are exactly those of `s` that satisfy `p`. */
  lemma FilterMembers<T>(s: seq<T>, p: T -> bool)
    ensures forall x :: x in Filter(s, p) <==> x in s && p(x)
  {
    var r := Filter(s, p);
    forall x | x in s && p(x) ensures x in r {
      var i :| 0 <= i < |s| && s[i] == x;
    }
  }

  /** Filtering keeps the relative order: it distributes over concatenation. */
  lemma {:induction false} FilterConcat<T>(a: seq<T>, b: seq<T>, p: T -> bool)
    ensures Filter(a + b, p) == Filter(a, p) + Filter(b, p)
  {
    if a != [] {
      assert (a + b)[1..] == a[1..] + b;
      FilterConcat(a[1..], b, p);
    } else {
      assert a + b == b;
    }
  }

  /** A weaker filter keeps at least as many elements. */
  lemma {:induction false} FilterLengthMonotone<T>(s: seq<T>, p: T -> bool, q: T -> bool)
    requires forall x :: p(x) ==> q(x)
    ensures |Filter(s, p)| <= |Filter(s, q)|
  {
    if s != [] {
      FilterLengthMonotone(s[1..], p, q);
    }
  }

  /** `Array.from(new Set(s))`: each value once, in the order of first occurrence. */
  function Distinct<T(==,!new)>(s: seq<T>): (r: seq<T>)
    ensures forall x :: x in r <==> x in s
    ensures forall i, j :: 0 <= i < j < |r| ==> r[i] != r[j]
  {
    if s == [] then []
    else
      var rest := Distinct(s[..|s| - 1]);
      assert forall x :: x in s <==> x in s[..|s| - 1] || x == s[|s| - 1];
      if s[|s| - 1] in rest then rest else rest + [s[|s| - 1]]
  }

  /** `r` lists values in the order of their first occurrences in `s`: each occurs in
      `s` before the first occurrence of any value listed after it. */
  ghost predicate InFirstOrder<T>(s: seq<T>, r: seq<T>) {
    forall i, j :: 0 <= i < j < |r| ==> exists a :: 0 <= a < |s| && s[a] == r[i] && r[j] !in s[..a]
  }

  /** The values keep the order of their first occurrences. */
  lemma {:induction false} DistinctFirstOrder<T(!new)>(s: seq<T>)
    ensures InFirstOrder(s, Distinct(s))
  {
    if s != [] {
      var p, x := s[..|s| - 1], s[|s| - 1];
      var rest, r := Distinct(p), Distinct(s);
      DistinctFirstOrder(p);
      assert r == rest || (x !in rest && r == rest + [x]);
      forall i, j | 0 <= i < j < |r|
        ensures exists a :: 0 <= a < |s| && s[a] == r[i] && r[j] !in s[..a]
      {
        assert i < |rest| && r[i] == rest[i];
        if j < |rest| {
          assert r[j] == rest[j];
          var a :| 0 <= a < |p| && p[a] == rest[i] && rest[j] !in p[..a];
          assert s[..a] == p[..a] && s[a] == p[a];
        } else {
          assert rest[i] in p;
          var a :| 0 <= a < |p| && p[a] == rest[i];
          assert s[..a] == p[..a] && s[a] == p[a];
        }
      }
    }
  }

  /** `s.filter((_, i) => i !== index)`: the entry at `index` goes, the others keep
      their order; an index outside the list removes nothing. */
  function RemoveAt<T>(s: seq<T>, index: int): (r: seq<T>)
    ensures 0 <= index < |s| ==>
      |r| == |s| - 1 &&
      (forall i :: 0 <= i < index ==> r[i] == s[i]) &&
      (forall i :: index <= i < |r| ==> r[i] == s[i + 1])
    ensures !(0 <= index < |s|) ==> r == s
  {
    if 0 <= index < |s| then s[..index] + s[index + 1..] else s
  }

  /** Removing the entry at an index removes one occurrence of it. */
  lemma RemoveAtMultiset<T>(s: seq<T>, index: int)
    requires 0 <= index < |s|
    ensures multiset(RemoveAt(s, index)) == multiset(s) - multiset{s[index]}
  {
    assert s == s[..index] + [s[index]] + s[index + 1..];
  }

  /** Taking one `x` off both sides keeps a sub-multiset a sub-multiset. */
  lemma SubMultisetRest<T>(x: T, a: multiset<T>, b: multiset<T>)
    requires multiset{x} + a <= b
    ensures a <= b - multiset{x}
  {
  }

  /** Putting one `x` back on both sides keeps a sub-multiset a sub-multiset. */
  lemma SubMultisetAdd<T>(x: T, a: multiset<T>, b: multiset<T>)
    requires x in b && a <= b - multiset{x}
    ensures multiset{x} + a <= b
  {
  }

  /** `s.slice(0, n)` */
  function Take<T>(s: seq<T>, n: nat): (r: seq<T>)
    ensures |r| == if |s| < n then |s| else n
    ensures r == s[..|r|]
  {
    if |s| <= n then s else s[..n]
  }

  /** A prefix holds each element at most as often as the whole list does. */
  lemma TakeSubMultiset<T>(s: seq<T>, n: nat)
    ensures multiset(Take(s, n)) <= multiset(s)
  {
    var r := Take(s, n);
    assert s == r + s[|r|..];
  }

  /** `sort(...).slice(0, n)`: the first `n` in order, and every element left out comes
      after every element kept. */
  function TopN<T>(s: seq<T>, key: T -> Key, d: Direction, n: nat): (r: seq<T>)
    ensures |r| == if |s| < n then |s| else n
    ensures Sorted(r, key, d)
    ensures forall x :: x in r ==> x in s
    ensures forall x, y :: x in r && y in s && y !in r ==> Before(key(x), key(y), d)
    ensures multiset(r) <= multiset(s)
    ensures |s| <= n ==> multiset(r) == multiset(s)
  {
    var sorted := SortBy(s, key, d);
    var r := Take(sorted, n);
    TakeSubMultiset(sorted, n);
    assert |s| <= n ==> r == sorted;
    assert forall x :: x in r ==> x in s by {
      forall x | x in r ensures x in s {
        assert x in multiset(sorted);
      }
    }
    forall x, y | x in r && y in s && y !in r ensures Before(key(x), key(y), d) {
      var i :| 0 <= i < |r| && r[i] == x;
      assert y in multiset(sorted);
      var j :| 0 <= j < |sorted| && sorted[j] == y;
      assert forall m :: 0 <= m < |r| ==> sorted[m] == r[m];
      assert j >= |r|;
    }
    r
  }
}
