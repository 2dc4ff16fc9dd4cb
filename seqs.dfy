// Sequence building blocks shared by the repositories (row scans ordered by a
// column) and the front end (`Array.prototype.filter`, `sort`, `slice`).
module Seqs {

  /** `xs.filter(p)`: the elements satisfying p, in their original order. */
  function Filter<T>(s: seq<T>, p: T -> bool): (r: seq<T>)
    ensures |r| <= |s|
    ensures forall i :: 0 <= i < |r| ==> p(r[i])
  {
    if s == [] then [] else (if p(s[0]) then [s[0]] else []) + Filter(s[1..], p)
  }

  /** Filter keeps exactly the elements of s that satisfy p. */
  lemma {:induction false} FilterMembers<T>(s: seq<T>, p: T -> bool, x: T)
    ensures x in Filter(s, p) <==> x in s && p(x)
  {
    if s != [] {
      FilterMembers(s[1..], p, x);
      assert s == [s[0]] + s[1..];
    }
  }

  /** The parts joined in order. */
  function Concat<T>(parts: seq<seq<T>>): seq<T>
  {
    if parts == [] then [] else Concat(parts[..|parts| - 1]) + parts[|parts| - 1]
  }

  lemma ConcatSnoc<T>(parts: seq<seq<T>>, p: seq<T>)
    ensures Concat(parts + [p]) == Concat(parts) + p
  {
    assert (parts + [p])[..|parts|] == parts;
  }

  /** r can be obtained from s by deleting elements, order kept. */
  ghost predicate IsSubsequence<T>(r: seq<T>, s: seq<T>)
    decreases |s|
  {
    r == [] || (s != [] && ((r[0] == s[0] && IsSubsequence(r[1..], s[1..])) || IsSubsequence(r, s[1..])))
  }

  lemma {:induction false} FilterIsSubsequence<T>(s: seq<T>, p: T -> bool)
    ensures IsSubsequence(Filter(s, p), s)
  {
    if s != [] {
      FilterIsSubsequence(s[1..], p);
      var r := Filter(s, p);
      if p(s[0]) {
        assert r[0] == s[0] && r[1..] == Filter(s[1..], p);
      } else {
        assert r == Filter(s[1..], p);
      }
    }
  }

  /** Filtering distributes over concatenation. */
  lemma {:induction false} FilterAppend<T>(s: seq<T>, t: seq<T>, p: T -> bool)
    ensures Filter(s + t, p) == Filter(s, p) + Filter(t, p)
  {
    if s == [] {
      assert s + t == t;
    } else {
      var u := s + t;
      assert u != [] && u[0] == s[0] && u[1..] == s[1..] + t;
      var head := if p(s[0]) then [s[0]] else [];
      calc {
        Filter(u, p);
        head + Filter(s[1..] + t, p);
        { FilterAppend(s[1..], t, p); }
        head + (Filter(s[1..], p) + Filter(t, p));
        (head + Filter(s[1..], p)) + Filter(t, p);
      }
    }
  }

  /** A predicate that holds everywhere filters nothing out. */
  lemma {:induction false} FilterAll<T>(s: seq<T>, p: T -> bool)
    requires forall i :: 0 <= i < |s| ==> p(s[i])
    ensures Filter(s, p) == s
  {
    if s != [] { FilterAll(s[1..], p); }
  }

  /** A predicate that holds nowhere leaves nothing. */
  lemma {:induction false} FilterNone<T>(s: seq<T>, p: T -> bool)
    requires forall i :: 0 <= i < |s| ==> !p(s[i])
    ensures Filter(s, p) == []
  {
    if s != [] { FilterNone(s[1..], p); }
  }

  /** Elements satisfying p and elements failing p together make up s. */
  lemma {:induction false} FilterSplit<T>(s: seq<T>, p: T -> bool, q: T -> bool)
    requires forall i :: 0 <= i < |s| ==> (q(s[i]) <==> !p(s[i]))
    ensures |Filter(s, p)| + |Filter(s, q)| == |s|
  {
    if s != [] { FilterSplit(s[1..], p, q); }
  }

  /** How often x occurs among the elements of s that satisfy p. */
  lemma {:induction false} FilterCount<T>(s: seq<T>, p: T -> bool, x: T)
    ensures multiset(Filter(s, p))[x] == if p(x) then multiset(s)[x] else 0
  {
    if s != [] {
      FilterCount(s[1..], p, x);
      assert s == [s[0]] + s[1..];
    }
  }

  /** Filtering two permutations of each other gives permutations of each other. */
  lemma FilterPermutation<T>(a: seq<T>, b: seq<T>, p: T -> bool)
    requires multiset(a) == multiset(b)
    ensures multiset(Filter(a, p)) == multiset(Filter(b, p))
  {
    var fa, fb := multiset(Filter(a, p)), multiset(Filter(b, p));
    forall x ensures fa[x] == fb[x] {
      FilterCount(a, p, x);
      FilterCount(b, p, x);
    }
    MultisetsAgree(fa, fb);
  }

  /** Multisets that agree on every count are equal. */
  lemma MultisetsAgree<T>(a: multiset<T>, b: multiset<T>)
    requires forall x :: a[x] == b[x]
    ensures a == b
  {
  }

  // ---- ordering by a numeric key ----

  ghost predicate SortedBy<T>(s: seq<T>, key: T -> real)
  {
    forall i, j :: 0 <= i < j < |s| ==> key(s[i]) <= key(s[j])
  }

  /** Inserts x before the first element whose key is not smaller. */
  function Insert<T>(x: T, s: seq<T>, key: T -> real): seq<T>
  {
    if s == [] || key(x) <= key(s[0]) then [x] + s else [s[0]] + Insert(x, s[1..], key)
  }

  /** Insertion sort by key, ascending. */
  function SortBy<T>(s: seq<T>, key: T -> real): seq<T>
  {
    if s == [] then [] else Insert(s[0], SortBy(s[1..], key), key)
  }

  lemma {:induction false} InsertPerm<T>(x: T, s: seq<T>, key: T -> real)
    ensures multiset(Insert(x, s, key)) == multiset(s) + multiset{x}
  {
    if s != [] && key(x) > key(s[0]) {
      InsertPerm(x, s[1..], key);
      assert s == [s[0]] + s[1..];
    }
  }

  lemma {:induction false} InsertMembers<T>(x: T, s: seq<T>, key: T -> real, y: T)
    ensures y in Insert(x, s, key) <==> y == x || y in s
  {
    if s != [] && key(x) > key(s[0]) {
      InsertMembers(x, s[1..], key, y);
      assert s == [s[0]] + s[1..];
    }
  }

  lemma {:induction false} InsertSorted<T>(x: T, s: seq<T>, key: T -> real)
    requires SortedBy(s, key)
    ensures SortedBy(Insert(x, s, key), key)
    ensures |Insert(x, s, key)| == |s| + 1
    ensures Insert(x, s, key)[0] == x || (s != [] && Insert(x, s, key)[0] == s[0])
  {
    if s != [] && key(x) > key(s[0]) {
      InsertSorted(x, s[1..], key);
      var t := Insert(x, s[1..], key);
      forall j | 0 <= j < |t| ensures key(s[0]) <= key(t[j]) {
        InsertMembers(x, s[1..], key, t[j]);
        if t[j] != x {
          var k :| 0 <= k < |s[1..]| && s[1..][k] == t[j];
          assert s[k + 1] == t[j];
        }
      }
    }
  }

  lemma {:induction false} SortByProperties<T>(s: seq<T>, key: T -> real)
    ensures SortedBy(SortBy(s, key), key)
    ensures multiset(SortBy(s, key)) == multiset(s)
  {
    if s != [] {
      SortByProperties(s[1..], key);
      InsertSorted(s[0], SortBy(s[1..], key), key);
      InsertPerm(s[0], SortBy(s[1..], key), key);
      assert s == [s[0]] + s[1..];
    }
  }

  /** Filtering a sorted sequence keeps it sorted. */
  lemma {:induction false} FilterSorted<T>(s: seq<T>, p: T -> bool, key: T -> real)
    requires SortedBy(s, key)
    ensures SortedBy(Filter(s, p), key)
  {
    if s != [] {
      FilterSorted(s[1..], p, key);
      var r := Filter(s[1..], p);
      forall j | 0 <= j < |r| ensures key(s[0]) <= key(r[j]) {
        FilterMembers(s[1..], p, r[j]);
        var k :| 0 <= k < |s[1..]| && s[1..][k] == r[j];
        assert s[k + 1] == r[j];
      }
    }
  }

  // ---- row scans ----

  /** The values of m that satisfy p. */
  function Matching<V(==)>(m: map<string, V>, p: V -> bool): set<V>
  {
    set v | v in m.Values && p(v)
  }

  /**
   * A query `SELECT ... WHERE p ORDER BY key` over the rows of a table, the rows
   * appended one by one as they are scanned: every matching row exactly once,
   * ascending by key (rows with equal keys come in no particular order).
   */
  method SelectOrdered<V(==)>(m: map<string, V>, p: V -> bool, key: V -> real) returns (r: seq<V>)
    ensures multiset(r) == multiset(Matching(m, p))
    ensures SortedBy(r, key)
  {
    var todo := Matching(m, p);
    ghost var all := todo;
    r := [];
    while todo != {}
      invariant todo <= all
      invariant multiset(r) == multiset(all - todo)
      invariant SortedBy(r, key)
      decreases |todo|
    {
      var v :| v in todo;
      InsertPerm(v, r, key);
      InsertSorted(v, r, key);
      r := Insert(v, r, key);
      assert all - (todo - {v}) == (all - todo) + {v};
      MultisetAddNew(all - todo, v);
      todo := todo - {v};
    }
  }

  lemma MultisetAddNew<V>(a: set<V>, v: V)
    requires v !in a
    ensures multiset(a + {v}) == multiset(a) + multiset{v}
  {
  }

  /** Every element of a scan of the rows satisfying p is such a row. */
  lemma ScanMembers<V>(m: map<string, V>, p: V -> bool, scan: seq<V>, k: int)
    requires multiset(scan) == multiset(Matching(m, p))
    requires 0 <= k < |scan|
    ensures scan[k] in m.Values && p(scan[k])
  {
    assert scan[k] in multiset(scan);
  }

  /** The keys of the first i + 1 elements satisfying q: those of the first i, and s[i]'s if it qualifies. */
  lemma KeysSnoc<V>(s: seq<V>, i: int, q: V -> bool, key: V -> string)
    requires 0 <= i < |s|
    ensures (set k | 0 <= k < i + 1 && q(s[k]) :: key(s[k]))
         == (set k | 0 <= k < i && q(s[k]) :: key(s[k])) + (if q(s[i]) then {key(s[i])} else {})
  {
  }

  /** An element found at two positions is counted twice. */
  lemma CountedTwice<T>(s: seq<T>, i: int, j: int)
    requires 0 <= i < j < |s| && s[i] == s[j]
    ensures multiset(s)[s[i]] >= 2
  {
    var x := s[i];
    assert s == s[..j] + s[j..];
    assert x in multiset(s[..j]) by { assert s[..j][i] == x; }
    assert x in multiset(s[j..]) by { assert s[j..][0] == x; }
  }

  /** A sequence whose multiset is that of a set holds no element twice. */
  lemma NoDuplicates<T>(s: seq<T>, S: set<T>, i: int, j: int)
    requires multiset(s) == multiset(S)
    requires 0 <= i < j < |s|
    ensures s[i] != s[j]
  {
    if s[i] == s[j] {
      CountedTwice(s, i, j);
    }
  }
}
