/** Sequences without repetition, filters, and sums over finite maps. */
module Collections {

  ghost predicate Distinct<T(!new)>(s: seq<T>) {
    forall i, j :: 0 <= i < j < |s| ==> s[i] != s[j]
  }

  ghost function IndexOf<T(!new)>(s: seq<T>, x: T): (i: nat)
    requires x in s
    ensures i < |s| && s[i] == x
  {
    var i :| 0 <= i < |s| && s[i] == x;
    i
  }

  // order lists the elements of xs, each once: what iterating a hash table yields.
  ghost predicate Enumerates<T(!new)>(order: seq<T>, xs: set<T>) {
    Distinct(order) && forall x :: x in order <==> x in xs
  }

  function Filter<T(!new)>(s: seq<T>, keep: T -> bool): (r: seq<T>)
    ensures forall x :: x in r <==> x in s && keep(x)
  {
    if s == [] then []
    else if keep(s[0]) then [s[0]] + Filter(s[1..], keep)
    else Filter(s[1..], keep)
  }

  lemma {:induction false} FilterConcat<T(!new)>(a: seq<T>, b: seq<T>, keep: T -> bool)
    ensures Filter(a + b, keep) == Filter(a, keep) + Filter(b, keep)
  {
    if a == [] {
      assert a + b == b;
    } else {
      FilterConcat(a[1..], b, keep);
      assert (a + b)[1..] == a[1..] + b;
    }
  }

  lemma {:induction false} FilterCount<T(!new)>(s: seq<T>, keep: T -> bool, x: T)
    ensures multiset(Filter(s, keep))[x] == if keep(x) then multiset(s)[x] else 0
  {
    if s != [] {
      FilterCount(s[1..], keep, x);
      assert s == [s[0]] + s[1..];
    }
  }

  // One more element of the sequence filtered.
  lemma FilterSnoc<T(!new)>(s: seq<T>, i: nat, keep: T -> bool)
    requires i < |s|
    ensures Filter(s[..i + 1], keep) == Filter(s[..i], keep) + if keep(s[i]) then [s[i]] else []
  {
    assert s[..i + 1] == s[..i] + [s[i]];
    assert [s[i]][1..] == [];
    FilterConcat(s[..i], [s[i]], keep);
  }

  lemma {:induction false} FilterDistinct<T(!new)>(s: seq<T>, keep: T -> bool)
    requires Distinct(s)
    ensures Distinct(Filter(s, keep))
  {
    if s != [] {
      assert s[0] !in s[1..];
      FilterDistinct(s[1..], keep);
    }
  }

  // A filter only looks at what its predicate says of the elements of s.
  lemma {:induction false} FilterAgrees<T(!new)>(s: seq<T>, p: T -> bool, q: T -> bool)
    requires forall x :: x in s ==> p(x) == q(x)
    ensures Filter(s, p) == Filter(s, q)
  {
    if s != [] {
      FilterAgrees(s[1..], p, q);
    }
  }

  lemma {:induction false} FilterNone<T(!new)>(s: seq<T>, keep: T -> bool)
    requires forall x :: x in s ==> !keep(x)
    ensures Filter(s, keep) == []
  {
    if s != [] {
      FilterNone(s[1..], keep);
    }
  }

  lemma FilterPair<T(!new)>(a: T, b: T, keep: T -> bool)
    ensures Filter([a, b], keep) == (if keep(a) then [a] else []) + (if keep(b) then [b] else [])
  {
    assert [a, b][1..] == [b] && [b][1..] == [];
    assert Filter([b], keep) == if keep(b) then [b] else [];
  }

  lemma DistinctConcat<T(!new)>(a: seq<T>, b: seq<T>)
    requires Distinct(a) && Distinct(b)
    requires forall x :: x in a ==> x !in b
    ensures Distinct(a + b)
  {
    var c := a + b;
    forall i, j | 0 <= i < j < |c|
      ensures c[i] != c[j]
    {
      if i < |a| <= j {
        assert c[i] in a && b[j - |a|] in b;
      } else if |a| <= i {
        assert c[i] == b[i - |a|] && c[j] == b[j - |a|];
      }
    }
  }

  // Conversely, a repeated or shared element is a repetition of the whole.
  lemma DistinctParts<T(!new)>(a: seq<T>, b: seq<T>)
    requires Distinct(a + b)
    ensures Distinct(a) && Distinct(b)
    ensures forall x :: x in a ==> x !in b
  {
    var c := a + b;
    assert forall i :: 0 <= i < |a| ==> c[i] == a[i];
    assert forall i :: 0 <= i < |b| ==> c[|a| + i] == b[i];
  }

  lemma {:induction false} EnumerationSize<T(!new)>(order: seq<T>, xs: set<T>)
    requires Enumerates(order, xs)
    ensures |order| == |xs|
  {
    if order == [] {
      assert xs == {};
    } else {
      assert order[0] !in order[1..];
      EnumerationSize(order[1..], xs - {order[0]});
    }
  }

  lemma SubsetSize<T>(a: set<T>, b: set<T>)
    requires a <= b
    ensures |a| <= |b|
  {
    if a != {} {
      var x :| x in a;
      SubsetSize(a - {x}, b - {x});
    }
  }

  // ---- Sums over the keys of a map ----

  ghost function Sum<K>(f: map<K, nat>): nat {
    if f.Keys == {} then 0
    else
      var k :| k in f.Keys;
      f[k] + Sum(f - {k})
  }

  lemma {:induction false} SumWithout<K>(f: map<K, nat>, k: K)
    requires k in f
    ensures Sum(f) == f[k] + Sum(f - {k})
    decreases |f|
  {
    var c :| c in f.Keys && Sum(f) == f[c] + Sum(f - {c});
    if c != k {
      SumWithout(f - {c}, k);
      SumWithout(f - {k}, c);
      assert f - {c} - {k} == f - {k} - {c};
    }
  }

  lemma SumUpdate<K>(f: map<K, nat>, k: K, v: nat)
    ensures Sum(f[k := v]) == v + Sum(f - {k})
    ensures k in f ==> Sum(f) == f[k] + Sum(f - {k})
    ensures k !in f ==> f - {k} == f
  {
    SumWithout(f[k := v], k);
    assert f[k := v] - {k} == f - {k};
    if k in f {
      SumWithout(f, k);
    } else {
      assert f - {k} == f;
    }
  }

  lemma {:induction false} SumMonotone<K>(f: map<K, nat>, g: map<K, nat>)
    requires f.Keys <= g.Keys
    requires forall k :: k in f ==> f[k] <= g[k]
    ensures Sum(f) <= Sum(g)
    decreases |f|
  {
    if f.Keys == {} {
    } else {
      var k :| k in f.Keys;
      SumWithout(f, k);
      SumWithout(g, k);
      SumMonotone(f - {k}, g - {k});
    }
  }

  lemma SumDrops<K>(f: map<K, nat>, g: map<K, nat>, k: K)
    requires f.Keys <= g.Keys && k in g
    requires forall x :: x in f ==> f[x] <= g[x]
    requires if k in f then f[k] < g[k] else 0 < g[k]
    ensures Sum(f) < Sum(g)
  {
    SumWithout(g, k);
    SumMonotone(f - {k}, g - {k});
    if k in f {
      SumWithout(f, k);
    } else {
      assert f - {k} == f;
    }
  }

  lemma {:induction false} SumOfZeros<K>(f: map<K, nat>)
    requires forall k :: k in f ==> f[k] == 0
    ensures Sum(f) == 0
    decreases |f|
  {
    if f.Keys != {} {
      var k :| k in f.Keys;
      SumWithout(f, k);
      SumOfZeros(f - {k});
    }
  }

  // Adding entries of weight zero changes nothing.
  lemma SumPadded<K>(f: map<K, nat>, g: map<K, nat>)
    requires f.Keys <= g.Keys
    requires forall k :: k in f ==> f[k] == g[k]
    requires forall k :: k in g && k !in f ==> g[k] == 0
    ensures Sum(f) == Sum(g)
    decreases |g| - |f|
  {
    hide Sum;
    if f.Keys == g.Keys {
      assert f == g;
    } else {
      var k :| k in g.Keys && k !in f.Keys;
      SumUpdate(f, k, 0);
      assert |f[k := 0]| == |f| + 1;
      SubsetSize(f[k := 0].Keys, g.Keys);
      SumPadded(f[k := 0], g);
    }
  }
}
