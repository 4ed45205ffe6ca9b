/** Python collections the models share: list filtering, insertion-ordered dictionaries, the
    stable descending sort and list slicing. */
module Collections {

  datatype Option<+T> = None | Some(value: T)

  datatype Result<+T, +E> = Ok(value: T) | Err(error: E)

  predicate NoDup<T(==)>(s: seq<T>) {
    forall i, j :: 0 <= i < j < |s| ==> s[i] != s[j]
  }

  lemma NoDupAppend<T(!new)>(s: seq<T>, x: T)
    ensures NoDup(s + [x]) <==> NoDup(s) && x !in s
  {
    var t := s + [x];
    if NoDup(t) {
      forall i | 0 <= i < |s| ensures s[i] != x {
        assert t[i] != t[|s|];
      }
      forall i, j | 0 <= i < j < |s| ensures s[i] != s[j] {
        assert t[i] != t[j];
      }
    }
  }

  /** Removing one element of a duplicate-free list removes it entirely. */
  lemma NoDupSplit<T(!new)>(s: seq<T>, k: nat)
    requires k < |s| && NoDup(s)
    ensures s[k] !in s[..k] && s[k] !in s[k + 1..]
  {
  }

  lemma NoDupConcat<T(!new)>(a: seq<T>, b: seq<T>)
    ensures NoDup(a + b) <==> NoDup(a) && NoDup(b) && forall x | x in a :: x !in b
  {
    var s := a + b;
    if NoDup(s) {
      forall i, j | 0 <= i < j < |a| ensures a[i] != a[j] { assert s[i] != s[j]; }
      forall i, j | 0 <= i < j < |b| ensures b[i] != b[j] { assert s[|a| + i] != s[|a| + j]; }
      forall i, j | 0 <= i < |a| && 0 <= j < |b| ensures a[i] != b[j] { assert s[i] != s[|a| + j]; }
    } else if NoDup(a) && NoDup(b) {
      var i, j :| 0 <= i < j < |s| && s[i] == s[j];
      assert i < |a| <= j;
      assert s[i] in a && s[i] in b;
    }
  }

  function ToSet<T>(s: seq<T>): set<T> {
    set x | x in s
  }

  lemma {:induction false} CountNoDup<T(!new)>(s: seq<T>)
    requires NoDup(s)
    ensures |ToSet(s)| == |s|
  {
    if s != [] {
      var init, last := s[..|s| - 1], s[|s| - 1];
      assert s == init + [last];
      NoDupAppend(init, last);
      CountNoDup(init);
      assert ToSet(s) == ToSet(init) + {last};
      assert last !in ToSet(init);
    }
  }

  /** A duplicate-free list contained in another is no longer, and equally long only if it has every member. */
  lemma ContainedNoDup<T(!new)>(a: seq<T>, b: seq<T>)
    requires NoDup(a) && NoDup(b) && forall x | x in a :: x in b
    ensures |a| <= |b|
    ensures |a| == |b| ==> forall x | x in b :: x in a
  {
    CountNoDup(a);
    CountNoDup(b);
    assert ToSet(a) <= ToSet(b);
    SubsetSize(ToSet(a), ToSet(b));
    if |a| == |b| {
      forall x | x in b ensures x in a { assert x in ToSet(b); }
    }
  }

  lemma SubsetSize<T(!new)>(a: set<T>, b: set<T>)
    requires a <= b
    ensures |a| <= |b|
    ensures |a| == |b| ==> a == b
  {
    assert b == a + (b - a);
    assert |b| == |a| + |b - a|;
  }

  // ---------------------------------------------------------------- filtering

  function Filter<T>(s: seq<T>, p: T -> bool): seq<T> {
    if s == [] then []
    else
      var init, last := s[..|s| - 1], s[|s| - 1];
      Filter(init, p) + if p(last) then [last] else []
  }

  lemma {:induction false} FilterMembers<T(!new)>(s: seq<T>, p: T -> bool)
    ensures forall x :: x in Filter(s, p) <==> x in s && p(x)
    ensures |Filter(s, p)| <= |s|
  {
    if s != [] {
      FilterMembers(s[..|s| - 1], p);
      assert s == s[..|s| - 1] + [s[|s| - 1]];
    }
  }

  lemma {:induction false} FilterConcat<T(!new)>(a: seq<T>, b: seq<T>, p: T -> bool)
    ensures Filter(a + b, p) == Filter(a, p) + Filter(b, p)
  {
    if b == [] {
      assert a + b == a;
    } else {
      FilterConcat(a, b[..|b| - 1], p);
      assert (a + b)[..|a + b| - 1] == a + b[..|b| - 1];
    }
  }

  lemma {:induction false} FilterNoDup<T(!new)>(s: seq<T>, p: T -> bool)
    requires NoDup(s)
    ensures NoDup(Filter(s, p))
  {
    if s != [] {
      var init, last := s[..|s| - 1], s[|s| - 1];
      assert s == init + [last];
      NoDupAppend(init, last);
      FilterNoDup(init, p);
      FilterMembers(init, p);
      NoDupAppend(Filter(init, p), last);
    }
  }

  lemma {:induction false} FilterAll<T(!new)>(s: seq<T>, p: T -> bool)
    requires forall x | x in s :: p(x)
    ensures Filter(s, p) == s
  {
    if s != [] {
      FilterAll(s[..|s| - 1], p);
      assert s == s[..|s| - 1] + [s[|s| - 1]];
    }
  }

  /** The list without any occurrence of `x`. */
  function Without<T(==)>(s: seq<T>, x: T): seq<T> {
    if s == [] then []
    else Without(s[..|s| - 1], x) + if s[|s| - 1] == x then [] else [s[|s| - 1]]
  }

  lemma {:induction false} WithoutSpec<T(!new)>(s: seq<T>, x: T)
    ensures forall y :: y in Without(s, x) <==> y in s && y != x
    ensures NoDup(s) ==> NoDup(Without(s, x))
  {
    if s != [] {
      var init, last := s[..|s| - 1], s[|s| - 1];
      assert s == init + [last];
      WithoutSpec(init, x);
      NoDupAppend(init, last);
      NoDupAppend(Without(init, x), last);
    }
  }

  /** The list without any member of `xs`. */
  lemma {:induction false} WithoutIsFilter<T(!new)>(s: seq<T>, x: T)
    ensures Without(s, x) == Filter(s, (y: T) => y != x)
  {
    if s != [] {
      WithoutIsFilter(s[..|s| - 1], x);
    }
  }

  function WithoutAll<T(==)>(s: seq<T>, xs: seq<T>): seq<T> {
    if s == [] then []
    else WithoutAll(s[..|s| - 1], xs) + if s[|s| - 1] in xs then [] else [s[|s| - 1]]
  }

  lemma {:induction false} WithoutAllSpec<T(!new)>(s: seq<T>, xs: seq<T>)
    ensures forall y :: y in WithoutAll(s, xs) <==> y in s && y !in xs
    ensures NoDup(s) ==> NoDup(WithoutAll(s, xs))
  {
    if s != [] {
      var init, last := s[..|s| - 1], s[|s| - 1];
      assert s == init + [last];
      WithoutAllSpec(init, xs);
      NoDupAppend(init, last);
      NoDupAppend(WithoutAll(init, xs), last);
    }
  }

  function Map<T, U>(s: seq<T>, f: T -> U): seq<U> {
    seq(|s|, i requires 0 <= i < |s| => f(s[i]))
  }

  /** `s[:k]`, also for a negative `k`, which drops from the end. */
  function Slice<T>(s: seq<T>, k: int): (r: seq<T>)
    ensures r <= s
    ensures k >= 0 ==> |r| == if k <= |s| then k else |s|
    ensures k < 0 ==> |r| == if -k <= |s| then |s| + k else 0
  {
    if k >= |s| then s
    else if k >= 0 then s[..k]
    else if |s| + k >= 0 then s[..|s| + k]
    else []
  }

  /** `"".join(parts)`. */
  function Concat(parts: seq<string>): string {
    if parts == [] then "" else Concat(parts[..|parts| - 1]) + parts[|parts| - 1]
  }

  lemma {:induction false} ConcatCons(part: string, parts: seq<string>)
    ensures Concat([part] + parts) == part + Concat(parts)
  {
    if parts == [] {
      assert [part] + parts == [part] && [part][..0] == [];
    } else {
      var n := |parts| - 1;
      assert ([part] + parts)[..n + 1] == [part] + parts[..n];
      ConcatCons(part, parts[..n]);
    }
  }

  /** `sep.join(parts)`. */
  function Join(parts: seq<string>, sep: string): string {
    if parts == [] then ""
    else if |parts| == 1 then parts[0]
    else Join(parts[..|parts| - 1], sep) + sep + parts[|parts| - 1]
  }

  /** Joining puts one separator between neighbours and nothing else. */
  lemma {:induction false} JoinConcat(a: seq<string>, b: seq<string>, sep: string)
    requires a != [] && b != []
    ensures Join(a + b, sep) == Join(a, sep) + sep + Join(b, sep)
  {
    var all := a + b;
    if |b| == 1 {
      assert all[..|all| - 1] == a;
    } else {
      var init, last := b[..|b| - 1], b[|b| - 1];
      JoinConcat(a, init, sep);
      assert all[..|all| - 1] == a + init && all[|all| - 1] == last;
      JoinUnfold(all, sep);
      JoinUnfold(b, sep);
      hide Join;
    }
  }

  lemma JoinUnfold(parts: seq<string>, sep: string)
    requires |parts| > 1
    ensures Join(parts, sep) == Join(parts[..|parts| - 1], sep) + sep + parts[|parts| - 1]
  {
  }

  // ---------------------------------------------------------------- dictionaries

  /** A Python dict: iteration follows the order of first insertion. */
  datatype Dict<K(==, !new), V> = Dict(order: seq<K>, at: map<K, V>) {

    predicate Valid() {
      && NoDup(order)
      && (forall k | k in order :: k in at)
      && (forall k | k in at :: k in order)
    }

    function Put(k: K, v: V): Dict<K, V> {
      Dict(if k in at then order else order + [k], at[k := v])
    }

    function Remove(k: K): Dict<K, V> {
      Dict(Without(order, k), at - {k})
    }

    lemma PutValid(k: K, v: V)
      requires Valid()
      ensures Put(k, v).Valid()
      ensures order <= Put(k, v).order && forall x | x in Put(k, v).order :: x in order || x == k
      ensures Put(k, v).at == at[k := v]
    {
      NoDupAppend(order, k);
    }

    lemma RemoveValid(k: K)
      requires Valid()
      ensures Remove(k).Valid()
      ensures Remove(k).order == Filter(order, (x: K) => x != k) && Remove(k).at == at - {k}
    {
      WithoutSpec(order, k);
      WithoutIsFilter(order, k);
    }
  }

  // ---------------------------------------------------------------- sorting

  predicate SortedDesc<T>(s: seq<T>, key: T -> real) {
    forall i, j :: 0 <= i <= j < |s| ==> key(s[i]) >= key(s[j])
  }

  /** Inserts `x` behind every element whose key is not smaller. */
  function InsertDesc<T>(s: seq<T>, x: T, key: T -> real): seq<T> {
    if s == [] || key(s[|s| - 1]) >= key(x) then s + [x]
    else InsertDesc(s[..|s| - 1], x, key) + [s[|s| - 1]]
  }

  /** `sorted(s, key=key, reverse=True)`: stable, equal keys keep their order. */
  function SortDesc<T>(s: seq<T>, key: T -> real): seq<T> {
    if s == [] then [] else InsertDesc(SortDesc(s[..|s| - 1], key), s[|s| - 1], key)
  }

  function HasKey<T>(key: T -> real, k: real): T -> bool {
    e => key(e) == k
  }

  lemma {:induction false} InsertDescSorted<T(!new)>(s: seq<T>, x: T, key: T -> real)
    requires SortedDesc(s, key)
    ensures multiset(InsertDesc(s, x, key)) == multiset(s) + multiset{x}
    ensures SortedDesc(InsertDesc(s, x, key), key)
  {
    if s == [] || key(s[|s| - 1]) >= key(x) {
    } else {
      var init, last := s[..|s| - 1], s[|s| - 1];
      var r := InsertDesc(init, x, key);
      InsertDescSorted(init, x, key);
      assert s == init + [last];
      forall i | 0 <= i < |r| ensures key(r[i]) >= key(last) {
        assert r[i] in multiset(r);
        assert r[i] in init || r[i] == x;
      }
    }
  }

  lemma {:induction false} InsertDescStable<T(!new)>(s: seq<T>, x: T, key: T -> real, k: real)
    ensures Filter(InsertDesc(s, x, key), HasKey(key, k)) == Filter(s + [x], HasKey(key, k))
  {
    var p := HasKey(key, k);
    FilterConcat(s, [x], p);
    if s == [] || key(s[|s| - 1]) >= key(x) {
    } else {
      var init, last := s[..|s| - 1], s[|s| - 1];
      assert s == init + [last];
      InsertDescStable(init, x, key, k);
      FilterConcat(InsertDesc(init, x, key), [last], p);
      FilterConcat(init, [x], p);
      FilterConcat(init, [last], p);
      assert Filter([x], p) == [] || Filter([last], p) == [];
    }
  }

  /** The sort is a sorted permutation and keeps the order of equal keys. */
  lemma {:induction false} SortDescSorted<T(!new)>(s: seq<T>, key: T -> real)
    ensures SortedDesc(SortDesc(s, key), key)
    ensures multiset(SortDesc(s, key)) == multiset(s)
  {
    if s != [] {
      var init, last := s[..|s| - 1], s[|s| - 1];
      assert s == init + [last];
      SortDescSorted(init, key);
      InsertDescSorted(SortDesc(init, key), last, key);
    }
  }

  lemma InsertLast<T(!new)>(s: seq<T>, key: T -> real)
    requires s != [] && SortedDesc(s, key)
    ensures InsertDesc(s[..|s| - 1], s[|s| - 1], key) == s
  {
    assert |s| > 1 ==> key(s[|s| - 2]) >= key(s[|s| - 1]);
    assert s == s[..|s| - 1] + [s[|s| - 1]];
  }

  /** A sorted list stays as it is. */
  lemma {:induction false} SortDescIdentity<T(!new)>(s: seq<T>, key: T -> real)
    requires SortedDesc(s, key)
    ensures SortDesc(s, key) == s
  {
    SortUnfold(s, key);
    hide SortDesc, InsertDesc;
    if s != [] {
      InsertLast(s, key);
      SortDescIdentity(s[..|s| - 1], key);
    }
  }

  lemma SortUnfold<T(!new)>(s: seq<T>, key: T -> real)
    ensures s == [] ==> SortDesc(s, key) == s
    ensures s != [] ==> SortDesc(s, key) == InsertDesc(SortDesc(s[..|s| - 1], key), s[|s| - 1], key)
  {
    hide InsertDesc;
  }

  lemma {:induction false} SortDescStable<T(!new)>(s: seq<T>, key: T -> real, k: real)
    ensures Filter(SortDesc(s, key), HasKey(key, k)) == Filter(s, HasKey(key, k))
  {
    if s != [] {
      var init, last := s[..|s| - 1], s[|s| - 1];
      assert s == init + [last];
      SortDescStable(init, key, k);
      InsertDescStable(SortDesc(init, key), last, key, k);
      FilterConcat(SortDesc(init, key), [last], HasKey(key, k));
      FilterConcat(init, [last], HasKey(key, k));
    }
  }

  /** Two passing elements keep their order in the filtered list. */
  lemma {:induction false} FilterKeepsOrder<T(!new)>(s: seq<T>, p: T -> bool, a: nat, b: nat) returns (i: nat, j: nat)
    requires a < b < |s| && p(s[a]) && p(s[b])
    ensures i < j < |Filter(s, p)| && Filter(s, p)[i] == s[a] && Filter(s, p)[j] == s[b]
  {
    var init := s[..|s| - 1];
    if b < |s| - 1 {
      i, j := FilterKeepsOrder(init, p, a, b);
    } else {
      i := FilterKeeps(init, p, a);
      j := |Filter(init, p)|;
    }
  }

  lemma {:induction false} FilterKeeps<T(!new)>(s: seq<T>, p: T -> bool, a: nat) returns (i: nat)
    requires a < |s| && p(s[a])
    ensures i < |Filter(s, p)| && Filter(s, p)[i] == s[a]
  {
    if a < |s| - 1 {
      i := FilterKeeps(s[..|s| - 1], p, a);
    } else {
      i := |Filter(s[..|s| - 1], p)|;
    }
  }

  /** Two elements of the filtered list come from the list in the same order. */
  lemma {:induction false} FilterOrigins<T(!new)>(s: seq<T>, p: T -> bool, i: nat, j: nat) returns (a: nat, b: nat)
    requires i < j < |Filter(s, p)|
    ensures a < b < |s| && s[a] == Filter(s, p)[i] && s[b] == Filter(s, p)[j]
  {
    var init := s[..|s| - 1];
    if j < |Filter(init, p)| {
      a, b := FilterOrigins(init, p, i, j);
    } else {
      a := FilterOrigin(init, p, i);
      b := |s| - 1;
    }
  }

  lemma {:induction false} FilterOrigin<T(!new)>(s: seq<T>, p: T -> bool, i: nat) returns (a: nat)
    requires i < |Filter(s, p)|
    ensures a < |s| && s[a] == Filter(s, p)[i]
  {
    var init := s[..|s| - 1];
    if i < |Filter(init, p)| {
      a := FilterOrigin(init, p, i);
    } else {
      a := |s| - 1;
    }
  }

  /** Elements with equal keys come in the order they had before sorting. */
  lemma SortKeepsTies<T(!new)>(s: seq<T>, key: T -> real, i: nat, j: nat) returns (a: nat, b: nat)
    requires var r := SortDesc(s, key); i < j < |r| && key(r[i]) == key(r[j])
    ensures a < b < |s| && s[a] == SortDesc(s, key)[i] && s[b] == SortDesc(s, key)[j]
  {
    var r := SortDesc(s, key);
    var p := HasKey(key, key(r[i]));
    SortDescStable(s, key, key(r[i]));
    assert p(r[i]) && p(r[j]);
    hide SortDesc, Filter;
    var x, y := FilterKeepsOrder(r, p, i, j);
    a, b := FilterOrigins(s, p, x, y);
  }

  /** A permutation of a duplicate-free list has the same members, once each. */
  lemma PermutationNoDup<T(!new)>(s: seq<T>, r: seq<T>)
    requires multiset(s) == multiset(r) && NoDup(s)
    ensures NoDup(r) && |r| == |s|
    ensures forall x :: x in s <==> x in r
  {
    assert |multiset(s)| == |multiset(r)|;
    forall x ensures x in s <==> x in r {
      assert x in s <==> x in multiset(s);
      assert x in r <==> x in multiset(r);
    }
    forall i, j | 0 <= i < j < |r| ensures r[i] != r[j] {
      if r[i] == r[j] {
        TwiceInMultiset(r, i, j);
        NoDupMultiset(s, r[i]);
        assert false;
      }
    }
  }

  lemma TwiceInMultiset<T(!new)>(s: seq<T>, i: nat, j: nat)
    requires i < j < |s| && s[i] == s[j]
    ensures multiset(s)[s[i]] >= 2
  {
    assert s == s[..j] + [s[j]] + s[j + 1..];
    assert s[i] in s[..j];
    assert s[i] in multiset(s[..j]);
  }

  lemma {:induction false} NoDupMultiset<T(!new)>(s: seq<T>, x: T)
    requires NoDup(s)
    ensures multiset(s)[x] <= 1
  {
    if s != [] {
      var init, last := s[..|s| - 1], s[|s| - 1];
      assert s == init + [last];
      NoDupAppend(init, last);
      NoDupMultiset(init, x);
      assert last !in multiset(init);
    }
  }
}
