/**
 * Stable sorting by a comparison, standing for Python's `list.sort(key=...)` and LINQ's
 * `OrderBy` / `OrderByDescending` (both stable), and the code-point order in which Python
 * compares strings.
 */
module Sorting {

  ghost predicate Total<T(!new)>(le: (T, T) -> bool) {
    forall a, b :: le(a, b) || le(b, a)
  }

  ghost predicate Transitive<T(!new)>(le: (T, T) -> bool) {
    forall a, b, c :: le(a, b) && le(b, c) ==> le(a, c)
  }

  predicate SortedBy<T>(s: seq<T>, le: (T, T) -> bool) {
    forall i, j :: 0 <= i < j < |s| ==> le(s[i], s[j])
  }

  /** Inserts x before the first element it is not after: equal elements keep x in front. */
  function Insert<T>(x: T, s: seq<T>, le: (T, T) -> bool): (r: seq<T>)
    ensures multiset(r) == multiset(s) + multiset{x}
    ensures |r| == |s| + 1
  {
    if s == [] then [x]
    else if le(x, s[0]) then [x] + s
    else
      assert s == [s[0]] + s[1..];
      [s[0]] + Insert(x, s[1..], le)
  }

  /** Insertion sort; elements that compare equal keep their original order. */
  function SortBy<T>(s: seq<T>, le: (T, T) -> bool): (r: seq<T>)
    ensures multiset(r) == multiset(s)
    ensures |r| == |s|
  {
    if s == [] then []
    else
      assert s == [s[0]] + s[1..];
      Insert(s[0], SortBy(s[1..], le), le)
  }

  lemma {:induction false} InsertSorted<T(!new)>(x: T, s: seq<T>, le: (T, T) -> bool)
    requires Total(le) && Transitive(le)
    requires SortedBy(s, le)
    ensures SortedBy(Insert(x, s, le), le)
  {
    if s == [] {
    } else if le(x, s[0]) {
      var r := [x] + s;
      forall i, j | 0 <= i < j < |r| ensures le(r[i], r[j]) {
        if i == 0 && j > 1 {
          assert le(s[0], s[j - 1]);
        }
      }
    } else {
      var t := Insert(x, s[1..], le);
      InsertSorted(x, s[1..], le);
      assert le(s[0], x);
      forall j | 0 <= j < |t| ensures le(s[0], t[j]) {
        assert t[j] in multiset(t);
        if t[j] != x {
          assert t[j] in multiset(s[1..]);
          var k :| 0 <= k < |s[1..]| && s[1..][k] == t[j];
          assert s[k + 1] == t[j];
        }
      }
      var r := [s[0]] + t;
      forall i, j | 0 <= i < j < |r| ensures le(r[i], r[j]) {
        if i == 0 {
          assert r[j] == t[j - 1];
        } else {
          assert r[i] == t[i - 1] && r[j] == t[j - 1];
        }
      }
    }
  }

  lemma {:induction false} SortBySorted<T(!new)>(s: seq<T>, le: (T, T) -> bool)
    requires Total(le) && Transitive(le)
    ensures SortedBy(SortBy(s, le), le)
  {
    if s != [] {
      SortBySorted(s[1..], le);
      InsertSorted(s[0], SortBy(s[1..], le), le);
    }
  }

  /** The elements of s that compare equal to e (each is ordered both ways against it), in order. */
  function EquivalentTo<T>(s: seq<T>, e: T, le: (T, T) -> bool): seq<T> {
    if s == [] then []
    else (if le(s[0], e) && le(e, s[0]) then [s[0]] else []) + EquivalentTo(s[1..], e, le)
  }

  /** Inserting x puts it in front of every element it compares equal to. */
  lemma {:induction false} InsertEquivalents<T(!new)>(x: T, t: seq<T>, e: T, le: (T, T) -> bool)
    requires Transitive(le)
    ensures EquivalentTo(Insert(x, t, le), e, le) ==
              (if le(x, e) && le(e, x) then [x] else []) + EquivalentTo(t, e, le)
  {
    var r := Insert(x, t, le);
    if t == [] {
    } else if le(x, t[0]) {
      assert r[1..] == t;
    } else {
      var q := Insert(x, t[1..], le);
      assert r == [t[0]] + q && r[0] == t[0] && r[1..] == q;
      InsertEquivalents(x, t[1..], e, le);
      var headPart := if le(t[0], e) && le(e, t[0]) then [t[0]] else [];
      var xPart := if le(x, e) && le(e, x) then [x] else [];
      assert EquivalentTo(r, e, le) == headPart + EquivalentTo(q, e, le);
      assert EquivalentTo(t, e, le) == headPart + EquivalentTo(t[1..], e, le);
      // x is not before t[0], so x and t[0] cannot both compare equal to e
      assert headPart == [] || xPart == [];
    }
  }

  /** The sort is stable: the elements equal to any e keep their original relative order. */
  lemma {:induction false} SortByStable<T(!new)>(s: seq<T>, e: T, le: (T, T) -> bool)
    requires Transitive(le)
    ensures EquivalentTo(SortBy(s, le), e, le) == EquivalentTo(s, e, le)
  {
    if s != [] {
      SortByStable(s[1..], e, le);
      InsertEquivalents(s[0], SortBy(s[1..], le), e, le);
    }
  }

  /** Lexicographic order on code points, Python's `<=` on `str`. */
  predicate StrLe(a: string, b: string)
    decreases |a|
  {
    a == [] || (b != [] && (a[0] < b[0] || (a[0] == b[0] && StrLe(a[1..], b[1..]))))
  }

  lemma {:induction false} StrLeTotal(a: string, b: string)
    ensures StrLe(a, b) || StrLe(b, a)
    decreases |a|
  {
    if a != [] && b != [] && a[0] == b[0] {
      StrLeTotal(a[1..], b[1..]);
    }
  }

  lemma {:induction false} StrLeTransitive(a: string, b: string, c: string)
    requires StrLe(a, b) && StrLe(b, c)
    ensures StrLe(a, c)
    decreases |a|
  {
    if a != [] && a[0] == b[0] && b[0] == c[0] {
      StrLeTransitive(a[1..], b[1..], c[1..]);
    }
  }

  lemma StrLeIsTotalPreorder()
    ensures Total(StrLe) && Transitive(StrLe)
  {
    forall a, b ensures StrLe(a, b) || StrLe(b, a) {
      StrLeTotal(a, b);
    }
    forall a, b, c | StrLe(a, b) && StrLe(b, c) ensures StrLe(a, c) {
      StrLeTransitive(a, b, c);
    }
  }
}
