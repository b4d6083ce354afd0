/** Small vocabulary shared by the models: optional values, results, and the
    sum of a finite map of counters. */
module Commun {

  datatype Option<+T> = None | Some(value: T)

  datatype Result<+T, +E> = Ok(value: T) | Err(error: E)

  /** A byte. */
  type Octet = n: nat | n < 256

  /** The byte of an ASCII character. */
  function Point(c: char): Octet
    requires c as int < 128
  {
    c as int
  }

  /** The bytes of a text of ASCII characters. */
  function Ascii(t: string): (b: seq<Octet>)
    requires forall i :: 0 <= i < |t| ==> t[i] as int < 128
    ensures |b| == |t| && forall i :: 0 <= i < |t| ==> b[i] == t[i] as int
  {
    seq(|t|, i requires 0 <= i < |t| => Point(t[i]))
  }

  function Max(a: int, b: int): int { if a < b then b else a }

  function Min(a: int, b: int): int { if a < b then a else b }

  /** The sum of all values of a finite map. */
  ghost function Somme<K>(m: map<K, nat>): nat
    decreases |m|
  {
    if m == map[] then 0 else
      var k :| k in m;
      m[k] + Somme(m - {k})
  }

  /** Any key can be taken out first. */
  lemma {:induction false} SommeSans<K>(m: map<K, nat>, k: K)
    requires k in m
    ensures Somme(m) == m[k] + Somme(m - {k})
    decreases |m|
  {
    var p :| p in m && Somme(m) == m[p] + Somme(m - {p});
    if p != k {
      SommeSans(m - {p}, k);
      SommeSans(m - {k}, p);
      assert m - {p} - {k} == m - {k} - {p};
    }
  }

  lemma SommeMaj<K>(m: map<K, nat>, k: K, v: nat)
    ensures Somme(m[k := v]) == Somme(m) - (if k in m then m[k] else 0) + v
  {
    var n := m[k := v];
    SommeSans(n, k);
    assert n - {k} == m - {k};
    if k in m {
      SommeSans(m, k);
    } else {
      assert m - {k} == m;
    }
  }

  lemma {:induction false} SommeNulle<K>(m: map<K, nat>)
    requires forall k :: k in m ==> m[k] == 0
    ensures Somme(m) == 0
    decreases |m|
  {
    if m != map[] {
      var k :| k in m;
      SommeSans(m, k);
      SommeNulle(m - {k});
    }
  }

  /** Keys holding zero may be left out of a sum. */
  lemma {:induction false} SommeRestreinte<K>(m: map<K, nat>, n: map<K, nat>)
    requires n.Keys <= m.Keys
    requires forall k :: k in n ==> n[k] == m[k]
    requires forall k :: k in m && k !in n ==> m[k] == 0
    ensures Somme(m) == Somme(n)
    decreases |n|
  {
    if n == map[] {
      SommeNulle(m);
    } else {
      var k :| k in n;
      SommeSans(m, k);
      SommeSans(n, k);
      SommeRestreinte(m - {k}, n - {k});
    }
  }

  lemma {:induction false} SommePlus<K>(m: map<K, nat>, n: map<K, nat>, p: map<K, nat>)
    requires m.Keys == n.Keys == p.Keys && forall k :: k in p ==> p[k] == m[k] + n[k]
    ensures Somme(p) == Somme(m) + Somme(n)
    decreases |m|
  {
    if m == map[] {
      assert m.Keys == {} && n == map[] && p == map[];
    } else {
      var k :| k in m;
      SommeSans(m, k);
      SommeSans(n, k);
      SommeSans(p, k);
      SommePlus(m - {k}, n - {k}, p - {k});
    }
  }

  lemma {:induction false} CardinalSous<T>(a: set<T>, b: set<T>)
    requires a <= b
    ensures |a| <= |b|
    decreases |a|
  {
    if a != {} {
      var x :| x in a;
      CardinalSous(a - {x}, b - {x});
    }
  }

  /** The sequence lists the set, each element once. */
  ghost predicate Enumere<T(!new)>(s: seq<T>, e: set<T>) {
    && (forall x :: x in s <==> x in e)
    && (forall i, j :: 0 <= i < j < |s| ==> s[i] != s[j])
  }

  lemma ClesMaj<K, V>(m: map<K, V>, k: K, v: V)
    ensures m[k := v].Keys == m.Keys + {k} && |m[k := v]| <= |m| + 1
  {
    assert m[k := v].Keys == m.Keys + {k};
    assert |m[k := v]| == |m[k := v].Keys| && |m| == |m.Keys|;
  }

  /** The map that sends every key of a set to one value. */
  function Constante<K, V>(ks: set<K>, v: V): map<K, V> { map k | k in ks :: v }

  lemma DeuxConstantes<K, V>(m: map<K, V>, a: set<K>, b: set<K>, v: V)
    ensures m + Constante(a, v) + Constante(b, v) == m + Constante(a + b, v)
  {
  }

  lemma UneConstante<K, V>(m: map<K, V>, k: K, v: V)
    ensures m + Constante({k}, v) == m[k := v]
  {
  }
}
