/** Filtering and stable sorting, with the facts the models need about them. */
module Sequences {

  function Filter<T(!new)>(keep: T -> bool, s: seq<T>): (r: seq<T>)
    ensures forall x :: x in r <==> x in s && keep(x)
    ensures |r| <= |s|
  {
    if s == [] then []
    else if keep(s[0]) then [s[0]] + Filter(keep, s[1..])
    else Filter(keep, s[1..])
  }

  lemma {:induction false} FilterConcat<T(!new)>(keep: T -> bool, a: seq<T>, b: seq<T>)
    ensures Filter(keep, a + b) == Filter(keep, a) + Filter(keep, b)
  {
    if a == [] {
      assert a + b == b;
    } else {
      assert (a + b)[1..] == a[1..] + b;
      FilterConcat(keep, a[1..], b);
    }
  }

  lemma {:induction false} FilterAll<T(!new)>(keep: T -> bool, s: seq<T>)
    requires forall x :: x in s ==> keep(x)
    ensures Filter(keep, s) == s
  {
    if s != [] {
      assert s[0] in s;
      FilterAll(keep, s[1..]);
    }
  }

  lemma {:induction false} FilterNone<T(!new)>(keep: T -> bool, s: seq<T>)
    requires forall x :: x in s ==> !keep(x)
    ensures Filter(keep, s) == []
  {
    if s != [] {
      assert s[0] in s;
      FilterNone(keep, s[1..]);
    }
  }

  /** Filtering twice is filtering once when the second test implies the first. */
  lemma {:induction false} FilterNarrows<T(!new)>(narrow: T -> bool, wide: T -> bool, s: seq<T>)
    requires forall x :: x in s && narrow(x) ==> wide(x)
    ensures Filter(narrow, Filter(wide, s)) == Filter(narrow, s)
  {
    if s != [] {
      assert s[0] in s;
      FilterNarrows(narrow, wide, s[1..]);
      if wide(s[0]) {
        var rest := Filter(wide, s[1..]);
        assert ([s[0]] + rest)[1..] == rest;
      }
    }
  }

  lemma {:induction false} FiltersCommute<T(!new)>(p: T -> bool, q: T -> bool, s: seq<T>)
    ensures Filter(p, Filter(q, s)) == Filter(q, Filter(p, s))
  {
    if s != [] {
      FiltersCommute(p, q, s[1..]);
      assert q(s[0]) ==> ([s[0]] + Filter(q, s[1..]))[1..] == Filter(q, s[1..]);
      assert p(s[0]) ==> ([s[0]] + Filter(p, s[1..]))[1..] == Filter(p, s[1..]);
    }
  }

  /** Filtering a list whose kept elements all come first cuts it there. */
  lemma FilterCuts<T(!new)>(keep: T -> bool, s: seq<T>, k: nat)
    requires k <= |s|
    requires (forall i :: 0 <= i < k ==> keep(s[i])) && (forall i :: k <= i < |s| ==> !keep(s[i]))
    ensures Filter(keep, s) == s[..k]
  {
    assert s == s[..k] + s[k..];
    FilterConcat(keep, s[..k], s[k..]);
    FilterAll(keep, s[..k]);
    FilterNone(keep, s[k..]);
  }

  lemma {:induction false} FilterSame<T(!new)>(p: T -> bool, q: T -> bool, s: seq<T>)
    requires forall x :: x in s ==> p(x) == q(x)
    ensures Filter(p, s) == Filter(q, s)
  {
    if s != [] {
      assert s[0] in s;
      FilterSame(p, q, s[1..]);
    }
  }

  lemma {:induction false} FilterShrinks<T(!new)>(narrow: T -> bool, wide: T -> bool, s: seq<T>)
    requires forall x :: x in s && narrow(x) ==> wide(x)
    ensures |Filter(narrow, s)| <= |Filter(wide, s)|
  {
    if s != [] {
      assert s[0] in s;
      FilterShrinks(narrow, wide, s[1..]);
    }
  }

  // ---------- stable sorting ----------

  ghost predicate TotalPreorder<T(!new)>(le: (T, T) -> bool) {
    && (forall x, y :: le(x, y) || le(y, x))
    && (forall x, y, z :: le(x, y) && le(y, z) ==> le(x, z))
  }

  ghost predicate Sorted<T>(le: (T, T) -> bool, s: seq<T>) {
    forall i, j :: 0 <= i < j < |s| ==> le(s[i], s[j])
  }

  /** Inserts in front of the first element that is not smaller, so equal elements keep their order. */
  function Insert<T(!new)>(le: (T, T) -> bool, x: T, s: seq<T>): (r: seq<T>)
    ensures multiset(r) == multiset{x} + multiset(s)
  {
    if s == [] then [x]
    else if le(x, s[0]) then [x] + s
    else
      assert s == [s[0]] + s[1..];
      [s[0]] + Insert(le, x, s[1..])
  }

  function Sort<T(!new)>(le: (T, T) -> bool, s: seq<T>): (r: seq<T>)
    ensures multiset(r) == multiset(s)
    ensures |r| == |s|
  {
    if s == [] then []
    else
      assert s == [s[0]] + s[1..];
      var r := Insert(le, s[0], Sort(le, s[1..]));
      assert |r| == |multiset(r)|;
      r
  }

  lemma SortMembers<T(!new)>(le: (T, T) -> bool, s: seq<T>)
    ensures forall x :: x in Sort(le, s) <==> x in s
  {
    forall x ensures x in Sort(le, s) <==> x in s {
      assert x in Sort(le, s) <==> x in multiset(Sort(le, s));
      assert x in s <==> x in multiset(s);
    }
  }

  lemma InsertMembers<T(!new)>(le: (T, T) -> bool, x: T, s: seq<T>)
    ensures forall y :: y in Insert(le, x, s) <==> y == x || y in s
  {
    forall y ensures y in Insert(le, x, s) <==> y == x || y in s {
      assert y in Insert(le, x, s) <==> y in multiset(Insert(le, x, s));
      assert y in s <==> y in multiset(s);
    }
  }

  lemma {:induction false} InsertSorts<T(!new)>(le: (T, T) -> bool, x: T, s: seq<T>)
    requires TotalPreorder(le) && Sorted(le, s)
    ensures Sorted(le, Insert(le, x, s))
  {
    if s != [] {
      if le(x, s[0]) {
        assert forall j :: 0 <= j < |s| ==> le(s[0], s[j]);
      } else {
        InsertSorts(le, x, s[1..]);
        InsertMembers(le, x, s[1..]);
        var rest := Insert(le, x, s[1..]);
        forall j | 0 <= j < |rest| ensures le(s[0], rest[j]) {
          assert rest[j] in rest;
        }
      }
    }
  }

  lemma {:induction false} SortSorts<T(!new)>(le: (T, T) -> bool, s: seq<T>)
    requires TotalPreorder(le)
    ensures Sorted(le, Sort(le, s))
  {
    if s != [] {
      SortSorts(le, s[1..]);
      InsertSorts(le, s[0], Sort(le, s[1..]));
    }
  }

  /** A sorted list is its own sort. */
  lemma {:induction false} SortOfSorted<T(!new)>(le: (T, T) -> bool, s: seq<T>)
    requires Sorted(le, s)
    ensures Sort(le, s) == s
  {
    if s != [] {
      SortOfSorted(le, s[1..]);
      if |s| > 1 {
        assert le(s[0], s[1]);
      }
    }
  }

  lemma {:induction false} InsertFilters<T(!new)>(le: (T, T) -> bool, keep: T -> bool, x: T, s: seq<T>)
    requires TotalPreorder(le) && Sorted(le, s)
    ensures Filter(keep, Insert(le, x, s)) == if keep(x) then Insert(le, x, Filter(keep, s)) else Filter(keep, s)
  {
    if s == [] {
      assert [x][1..] == [];
    } else if le(x, s[0]) {
      assert ([x] + s)[1..] == s;
      var f := Filter(keep, s);
      if f != [] {
        assert f[0] in f && f[0] in s;
        var i :| 0 <= i < |s| && s[i] == f[0];
        assert le(s[0], s[0]) && le(s[0], s[i]);
      }
    } else {
      InsertFilters(le, keep, x, s[1..]);
      var rest := Insert(le, x, s[1..]);
      assert ([s[0]] + rest)[1..] == rest;
    }
  }

  /** A stable sort commutes with every filter. */
  lemma {:induction false} SortFilters<T(!new)>(le: (T, T) -> bool, keep: T -> bool, s: seq<T>)
    requires TotalPreorder(le)
    ensures Filter(keep, Sort(le, s)) == Sort(le, Filter(keep, s))
  {
    if s != [] {
      SortFilters(le, keep, s[1..]);
      SortSorts(le, s[1..]);
      InsertFilters(le, keep, s[0], Sort(le, s[1..]));
      if keep(s[0]) {
        var f := Filter(keep, s[1..]);
        assert ([s[0]] + f)[1..] == f;
      }
    }
  }

  // ---------- strictly sorted lists ----------

  ghost predicate StrictlySorted<T>(le: (T, T) -> bool, s: seq<T>) {
    forall i, j :: 0 <= i < j < |s| ==> le(s[i], s[j]) && !le(s[j], s[i])
  }

  /** A strictly sorted list is determined by its elements. */
  lemma {:induction false} StrictlySortedUnique<T(!new)>(le: (T, T) -> bool, a: seq<T>, b: seq<T>)
    requires StrictlySorted(le, a) && StrictlySorted(le, b)
    requires forall x :: x in a <==> x in b
    ensures a == b
    decreases |a|
  {
    if a == [] {
      assert forall k :: 0 <= k < |b| ==> b[k] in b;
    } else {
      assert a[0] in a && a[0] in b;
      var i :| 0 <= i < |b| && b[i] == a[0];
      assert b[0] in b && b[0] in a;
      var j :| 0 <= j < |a| && a[j] == b[0];
      assert b[0] == a[0];
      forall x ensures x in a[1..] <==> x in b[1..] {
        TailMembers(le, a, x);
        TailMembers(le, b, x);
      }
      StrictlySortedUnique(le, a[1..], b[1..]);
      assert a == [a[0]] + a[1..] && b == [b[0]] + b[1..];
    }
  }

  lemma TailMembers<T(!new)>(le: (T, T) -> bool, s: seq<T>, x: T)
    requires s != [] && StrictlySorted(le, s)
    ensures x in s[1..] <==> x in s && x != s[0]
  {
    if x in s && x != s[0] {
      var i :| 0 <= i < |s| && s[i] == x;
      assert s[1..][i - 1] == x;
    }
    if x in s[1..] {
      var i :| 0 <= i < |s[1..]| && s[1..][i] == x;
      assert s[i + 1] == x && le(s[0], s[i + 1]) && !le(s[i + 1], s[0]);
    }
  }

  /** Sorting distinct elements of an antisymmetric order is strict. */
  lemma SortStrict<T(!new)>(le: (T, T) -> bool, s: seq<T>)
    requires TotalPreorder(le)
    requires forall i, j :: 0 <= i < j < |s| ==> s[i] != s[j]
    requires forall x, y :: x in s && y in s && le(x, y) && le(y, x) ==> x == y
    ensures StrictlySorted(le, Sort(le, s))
  {
    SortSorts(le, s);
    SortMembers(le, s);
    var r := Sort(le, s);
    forall i, j | 0 <= i < j < |r| ensures le(r[i], r[j]) && !le(r[j], r[i]) {
      if le(r[j], r[i]) {
        assert r[i] in r && r[j] in r;
        assert r[i] == r[j];
        Repeated(r, i, j);
        NotRepeated(s, r[i]);
      }
    }
  }

  lemma Repeated<T>(s: seq<T>, i: nat, j: nat)
    requires i < j < |s| && s[i] == s[j]
    ensures multiset(s)[s[i]] >= 2
  {
    assert s == s[..i] + [s[i]] + s[i + 1..j] + [s[j]] + s[j + 1..];
  }

  lemma {:induction false} NotRepeated<T>(s: seq<T>, x: T)
    requires forall i, j :: 0 <= i < j < |s| ==> s[i] != s[j]
    ensures multiset(s)[x] <= 1
  {
    if s != [] {
      assert s == [s[0]] + s[1..];
      NotRepeated(s[1..], x);
      assert forall k :: 0 <= k < |s[1..]| ==> s[1..][k] == s[k + 1] != s[0];
    }
  }

  /** Sorting two permutations of distinct elements gives the same list. */
  lemma SortPermutation<T(!new)>(le: (T, T) -> bool, s: seq<T>, t: seq<T>)
    requires TotalPreorder(le) && multiset(s) == multiset(t)
    requires forall i, j :: 0 <= i < j < |s| ==> s[i] != s[j]
    requires forall x, y :: x in s && y in s && le(x, y) && le(y, x) ==> x == y
    ensures Sort(le, s) == Sort(le, t)
  {
    forall x ensures x in s <==> x in t {
      assert x in s <==> x in multiset(s);
      assert x in t <==> x in multiset(t);
    }
    forall i, j | 0 <= i < j < |t| ensures t[i] != t[j] {
      if t[i] == t[j] {
        Repeated(t, i, j);
        NotRepeated(s, t[i]);
      }
    }
    SortStrict(le, s);
    SortStrict(le, t);
    SortMembers(le, s);
    SortMembers(le, t);
    StrictlySortedUnique(le, Sort(le, s), Sort(le, t));
  }

  // ---------- lists without repetition ----------

  /** Keeps the first of each. */
  function Distinct<T(==,!new)>(s: seq<T>): (r: seq<T>)
    ensures forall v :: v in r <==> v in s
    ensures forall i, j :: 0 <= i < j < |r| ==> r[i] != r[j]
    ensures r == [] <==> s == []
  {
    if s == [] then []
    else
      var before, last := Distinct(s[..|s| - 1]), s[|s| - 1];
      assert s == s[..|s| - 1] + [last];
      if last in before then before else before + [last]
  }

  /** Sorting the distinct elements of a part is picking that part out of the sorted distinct elements of the whole. */
  lemma SortedDistinctPart<T(!new)>(le: (T, T) -> bool, part: seq<T>, whole: seq<T>)
    requires TotalPreorder(le) && forall x :: x in part ==> x in whole
    requires forall x, y :: x in whole && y in whole && le(x, y) && le(y, x) ==> x == y
    ensures Sort(le, Distinct(part)) == Filter((x: T) => x in part, Sort(le, Distinct(whole)))
  {
    var a, b := Sort(le, Distinct(part)), Filter((x: T) => x in part, Sort(le, Distinct(whole)));
    SortFilters(le, (x: T) => x in part, Distinct(whole));
    var kept := Filter((x: T) => x in part, Distinct(whole));
    FilterKeepsDistinct((x: T) => x in part, Distinct(whole));
    SortStrict(le, Distinct(part));
    SortStrict(le, kept);
    SortMembers(le, Distinct(part));
    SortMembers(le, kept);
    StrictlySortedUnique(le, a, Sort(le, kept));
  }

  lemma {:induction false} FilterKeepsDistinct<T(!new)>(keep: T -> bool, s: seq<T>)
    requires forall i, j :: 0 <= i < j < |s| ==> s[i] != s[j]
    ensures forall i, j :: 0 <= i < j < |Filter(keep, s)| ==> Filter(keep, s)[i] != Filter(keep, s)[j]
  {
    if s != [] {
      FilterKeepsDistinct(keep, s[1..]);
      var rest := Filter(keep, s[1..]);
      forall j | 0 <= j < |rest| ensures rest[j] != s[0] {
        assert rest[j] in rest && rest[j] in s[1..];
        var k :| 0 <= k < |s[1..]| && s[1..][k] == rest[j];
        assert s[k + 1] == rest[j] && s[0] != s[k + 1];
      }
      if keep(s[0]) {
        assert Filter(keep, s) == [s[0]] + rest;
      } else {
        assert Filter(keep, s) == rest;
      }
    }
  }

  // ---------- grouping ----------

  function Mapped<T, K>(key: T -> K, s: seq<T>): (r: seq<K>)
    ensures |r| == |s| && forall i :: 0 <= i < |r| ==> r[i] == key(s[i])
  {
    seq(|s|, i requires 0 <= i < |s| => key(s[i]))
  }

  function HasKey<T, K(==)>(key: T -> K, k: K): T -> bool {
    (x: T) => key(x) == k
  }

  lemma DistinctMore<T(!new)>(s: seq<T>, v: T)
    ensures Distinct(s + [v]) == if v in Distinct(s) then Distinct(s) else Distinct(s) + [v]
  {
    assert (s + [v])[..|s|] == s;
  }

  lemma GroupMore<T(!new), K(!new)>(key: T -> K, items: seq<T>, x: T, k: K)
    ensures Filter(HasKey(key, k), items + [x]) == if key(x) == k then Filter(HasKey(key, k), items) + [x]
            else Filter(HasKey(key, k), items)
  {
    FilterConcat(HasKey(key, k), items, [x]);
    assert [x][1..] == [];
  }

  lemma NothingToGroup<T(!new), K(!new)>(key: T -> K)
    ensures Distinct(Mapped(key, [])) == [] && forall k :: Filter(HasKey(key, k), []) == []
  {
  }

  /** A dictionary of lists, with its keys in insertion order. */
  method GroupBy<T(!new), K(==,!new)>(key: T -> K, items: seq<T>) returns (keys: seq<K>, groups: map<K, seq<T>>)
    ensures keys == Distinct(Mapped(key, items))
    ensures forall k :: k in groups <==> k in keys
    ensures forall k :: k in groups ==> groups[k] == Filter(HasKey(key, k), items)
    ensures forall k :: k !in groups ==> Filter(HasKey(key, k), items) == []
  {
    hide Distinct, Filter, HasKey;
    keys, groups := [], map[];
    NothingToGroup(key);
    assert items[..0] == [];
    for i := 0 to |items|
      invariant keys == Distinct(Mapped(key, items[..i]))
      invariant forall k :: k in groups <==> k in keys
      invariant forall k :: k !in groups ==> Filter(HasKey(key, k), items[..i]) == []
      invariant forall k :: k in groups ==> groups[k] == Filter(HasKey(key, k), items[..i])
    {
      var x, k := items[i], key(items[i]);
      assert items[..i + 1] == items[..i] + [x];
      assert Mapped(key, items[..i + 1]) == Mapped(key, items[..i]) + [k];
      DistinctMore(Mapped(key, items[..i]), k);
      forall other
        ensures Filter(HasKey(key, other), items[..i + 1])
                == if k == other then Filter(HasKey(key, other), items[..i]) + [x]
                  else Filter(HasKey(key, other), items[..i])
      {
        GroupMore(key, items[..i], x, other);
      }
      if k !in groups {
        keys := keys + [k];
        groups := groups[k := []];
      }
      groups := groups[k := groups[k] + [x]];
    }
    assert items[..|items|] == items;
  }

  // ---------- lexicographic order of strings ----------

  predicate StringLe(a: string, b: string) {
    if a == "" then true
    else if b == "" then false
    else if a[0] == b[0] then StringLe(a[1..], b[1..])
    else a[0] < b[0]
  }

  lemma {:induction false} StringLeTotal(a: string, b: string)
    ensures StringLe(a, b) || StringLe(b, a)
    ensures StringLe(a, b) && StringLe(b, a) ==> a == b
  {
    if a != "" && b != "" && a[0] == b[0] {
      StringLeTotal(a[1..], b[1..]);
      assert a == [a[0]] + a[1..] && b == [b[0]] + b[1..];
    }
  }

  lemma {:induction false} StringLeTransitive(a: string, b: string, c: string)
    requires StringLe(a, b) && StringLe(b, c)
    ensures StringLe(a, c)
  {
    if a != "" && b != "" && c != "" && a[0] == b[0] == c[0] {
      StringLeTransitive(a[1..], b[1..], c[1..]);
    }
  }
}
