/** Multiset vocabulary shared by the whole model: optional values, integer spans,
    the bag of a map's values, and the image of a bag under a function. */
module Bags {
  datatype Option<+T> = None | Some(value: T)

  ghost function Held<T>(o: Option<T>): multiset<T> {
    match o
    case None => multiset{}
    case Some(v) => multiset{v}
  }

  function AsSeq<T>(o: Option<T>): seq<T> {
    match o
    case None => []
    case Some(v) => [v]
  }

  /** No element occurs twice. */
  ghost predicate Unique<T(!new)>(m: multiset<T>) {
    forall x | x in m :: m[x] == 1
  }

  /** The integers lo, lo+1, ..., hi-1 in order. */
  function Span(lo: nat, hi: nat): seq<nat>
    requires lo <= hi
  {
    seq(hi - lo, (i: nat) => lo + i)
  }

  lemma {:induction false} SpanCount(lo: nat, hi: nat, x: nat)
    requires lo <= hi
    ensures multiset(Span(lo, hi))[x] == if lo <= x < hi then 1 else 0
    decreases hi
  {
    if lo < hi {
      SpanCount(lo, hi - 1, x);
      assert Span(lo, hi) == Span(lo, hi - 1) + [hi - 1];
    }
  }

  lemma SpanPush(n: nat)
    ensures multiset(Span(0, n + 1)) == multiset(Span(0, n)) + multiset{n}
  {
    assert Span(0, n + 1) == Span(0, n) + [n];
  }

  lemma OneSide<T>(a: multiset<T>, b: multiset<T>, all: multiset<T>, x: T)
    requires all == a + b && all[x] <= 1 && x in a
    ensures x !in b
  {
  }

  lemma SpanUnique(lo: nat, hi: nat)
    requires lo <= hi
    ensures Unique(multiset(Span(lo, hi)))
  {
    forall x | x in multiset(Span(lo, hi)) ensures multiset(Span(lo, hi))[x] == 1 {
      SpanCount(lo, hi, x);
    }
  }

  /** Two positions of a sequence whose bag is duplicate-free hold different elements. */
  lemma UniqueSeq<T(!new)>(s: seq<T>, i: nat, j: nat)
    requires Unique(multiset(s)) && i < j < |s|
    ensures s[i] != s[j]
  {
    assert s == s[..j] + s[j..];
    assert s[i] == s[..j][i] && s[j] == s[j..][0];
    assert s[i] in multiset(s[..j]) && s[j] in multiset(s[j..]);
    assert multiset(s)[s[j]] == multiset(s[..j])[s[j]] + multiset(s[j..])[s[j]];
  }

  // ---- Sums of four bags ----

  ghost function Sum4<T>(a: multiset<T>, b: multiset<T>, c: multiset<T>, d: multiset<T>): multiset<T> {
    a + b + c + d
  }

  /** One element moves from one of the four bags to another, or in or out of the sum. */
  lemma Sum4Moves<T>(a: multiset<T>, b: multiset<T>, c: multiset<T>, d: multiset<T>, x: T)
    ensures Sum4(a + multiset{x}, b, c, d) == Sum4(a, b, c, d) + multiset{x}
    ensures Sum4(a, b + multiset{x}, c, d) == Sum4(a, b, c, d) + multiset{x}
    ensures Sum4(a, b, c + multiset{x}, d) == Sum4(a, b, c, d) + multiset{x}
    ensures Sum4(a, b, c, d + multiset{x}) == Sum4(a, b, c, d) + multiset{x}
  {
  }

  // ---- The bag of values of a map ----

  ghost function AnyKey<K, V>(m: map<K, V>): (k: K)
    requires m != map[]
    ensures k in m
  {
    var k :| k in m; k
  }

  ghost function Values<K, V>(m: map<K, V>): multiset<V>
    decreases |m|
  {
    if m == map[] then multiset{} else Values(m - {AnyKey(m)}) + multiset{m[AnyKey(m)]}
  }

  lemma {:induction false} ValuesRemove<K, V>(m: map<K, V>, k: K)
    requires k in m
    ensures Values(m) == Values(m - {k}) + multiset{m[k]}
    decreases |m|
  {
    var k0 := AnyKey(m);
    if k != k0 {
      var both := m - {k0} - {k};
      assert both == m - {k} - {k0};
      ValuesRemove(m - {k0}, k);
      ValuesRemove(m - {k}, k0);
    }
  }

  lemma ValuesInsert<K, V>(m: map<K, V>, k: K, v: V)
    requires k !in m
    ensures Values(m[k := v]) == Values(m) + multiset{v}
  {
    hide Values;
    ValuesRemove(m[k := v], k);
    assert m[k := v] - {k} == m;
  }

  lemma ValuesUpdate<K, V>(m: map<K, V>, k: K, v: V)
    requires k in m
    ensures Values(m) == Values(m - {k}) + multiset{m[k]}
    ensures Values(m[k := v]) == Values(m - {k}) + multiset{v}
  {
    hide Values;
    assert Values(m[k := v]) == Values(m - {k}) + multiset{v} by {
      assert m[k := v] == (m - {k})[k := v];
      ValuesInsert(m - {k}, k, v);
    }
    ValuesRemove(m, k);
  }

  lemma ValuesPair<K, V>(m: map<K, V>, a: K, b: K)
    requires a in m && b in m && a != b
    ensures multiset{m[a], m[b]} <= Values(m)
  {
    hide Values;
    ValuesRemove(m, a);
    ValuesRemove(m - {a}, b);
  }

  lemma {:induction false} ValuesSize<K, V>(m: map<K, V>)
    ensures |Values(m)| == |m|
    decreases |m|
  {
    if m != map[] {
      var k :| k in m;
      ValuesRemove(m, k);
      ValuesSize(m - {k});
    }
  }

  // ---- The image of a bag ----

  ghost function AnyOf<A>(m: multiset<A>): (a: A)
    requires m != multiset{}
    ensures a in m
  {
    var a :| a in m; a
  }

  ghost function Image<A, B>(f: A -> B, m: multiset<A>): multiset<B>
    decreases |m|
  {
    if m == multiset{} then multiset{} else Image(f, m - multiset{AnyOf(m)}) + multiset{f(AnyOf(m))}
  }

  lemma WithoutBoth<A>(m: multiset<A>, a: A, b: A)
    requires a in m && b in m && a != b
    ensures m - multiset{a} - multiset{b} == m - multiset{b} - multiset{a}
    ensures a in m - multiset{b} && b in m - multiset{a}
    ensures |m - multiset{a}| == |m - multiset{b}| == |m| - 1
  {
    assert m == (m - multiset{a}) + multiset{a} == (m - multiset{b}) + multiset{b};
  }

  lemma AddedBoth<B>(m: multiset<B>, u: B, v: B)
    ensures m + multiset{u} + multiset{v} == m + multiset{v} + multiset{u}
  {
  }

  lemma {:induction false} ImageRemove<A, B>(f: A -> B, m: multiset<A>, a: A)
    requires a in m
    ensures Image(f, m) == Image(f, m - multiset{a}) + multiset{f(a)}
    decreases |m|
  {
    var b := AnyOf(m);
    if a != b {
      assert Image(f, m) == Image(f, m - multiset{b}) + multiset{f(b)};
      hide Image;
      WithoutBoth(m, a, b);
      ImageRemove(f, m - multiset{b}, a);
      ImageRemove(f, m - multiset{a}, b);
      AddedBoth(Image(f, m - multiset{a} - multiset{b}), f(a), f(b));
    }
  }

  lemma ImageAdd<A, B>(f: A -> B, m: multiset<A>, a: A)
    ensures Image(f, m + multiset{a}) == Image(f, m) + multiset{f(a)}
  {
    hide Image;
    ImageRemove(f, m + multiset{a}, a);
    assert m + multiset{a} - multiset{a} == m;
  }

  lemma {:induction false} ImageUnion<A, B>(f: A -> B, m: multiset<A>, n: multiset<A>)
    ensures Image(f, m + n) == Image(f, m) + Image(f, n)
    decreases |n|
  {
    if n == multiset{} {
      assert m + n == m;
    } else {
      var a := AnyOf(n);
      assert m + n == m + (n - multiset{a}) + multiset{a};
      ImageAdd(f, m + (n - multiset{a}), a);
      ImageUnion(f, m, n - multiset{a});
    }
  }

  lemma {:induction false} ImageSize<A, B>(f: A -> B, m: multiset<A>)
    ensures |Image(f, m)| == |m|
    decreases |m|
  {
    if m != multiset{} {
      var a :| a in m;
      ImageRemove(f, m, a);
      ImageSize(f, m - multiset{a});
    }
  }

  /** If the image is duplicate-free then two members of the bag have different images. */
  lemma ImageApart<A, B(!new)>(f: A -> B, m: multiset<A>, a: A, b: A)
    requires multiset{a, b} <= m && Unique(Image(f, m))
    ensures f(a) != f(b)
  {
    hide Image;
    ImageRemove(f, m, a);
    ImageRemove(f, m - multiset{a}, b);
    assert f(a) in Image(f, m);
  }

  lemma ImageMember<A, B>(f: A -> B, m: multiset<A>, a: A)
    requires a in m
    ensures f(a) in Image(f, m)
  {
    ImageRemove(f, m, a);
  }

  lemma SubsetSize<T>(a: set<T>, b: set<T>)
    requires a <= b
    ensures |a| <= |b|
  {
    assert b == a + (b - a);
    assert |b| == |a| + |b - a|;
  }
}
