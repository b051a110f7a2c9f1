/**
 * Ordering shared by the notification query (Python's stable `list.sort`)
 * and the `ORDER BY ... ASC` of the router queries (NULLs last).
 */
module Orden {

  /** A sort key: a value, or NULL, which sorts after every value. */
  datatype Clave = Valor(v: int) | Nulo

  predicate Leq(a: Clave, b: Clave)
  {
    b.Nulo? || (a.Valor? && a.v <= b.v)
  }

  /** Every pair of positions is in key order. */
  ghost predicate Ordenada<T>(s: seq<T>, k: T -> Clave)
  {
    forall i, j :: 0 <= i < j < |s| ==> Leq(k(s[i]), k(s[j]))
  }

  /** Inserts `x` before the first element whose key is not smaller than its own. */
  function Insertar<T>(x: T, s: seq<T>, k: T -> Clave): (r: seq<T>)
    ensures |r| == |s| + 1
    ensures multiset(r) == multiset(s) + multiset{x}
  {
    if s == [] then [x]
    else if Leq(k(x), k(s[0])) then [x] + s
    else
      assert s == [s[0]] + s[1..];
      [s[0]] + Insertar(x, s[1..], k)
  }

  /** Stable insertion sort: equal keys keep their input order. */
  function OrdenarEstable<T>(s: seq<T>, k: T -> Clave): (r: seq<T>)
    ensures |r| == |s|
    ensures multiset(r) == multiset(s)
  {
    if s == [] then []
    else
      assert s == [s[0]] + s[1..];
      Insertar(s[0], OrdenarEstable(s[1..], k), k)
  }

  /** The elements of `s` whose key is `c`, in order. */
  function DeClave<T>(s: seq<T>, k: T -> Clave, c: Clave): seq<T>
  {
    if s == [] then []
    else (if k(s[0]) == c then [s[0]] else []) + DeClave(s[1..], k, c)
  }

  lemma {:induction false} InsertarOrdenada<T>(x: T, s: seq<T>, k: T -> Clave)
    requires Ordenada(s, k)
    ensures Ordenada(Insertar(x, s, k), k)
  {
    if s != [] && !Leq(k(x), k(s[0])) {
      var t := Insertar(x, s[1..], k);
      InsertarOrdenada(x, s[1..], k);
      assert Insertar(x, s, k) == [s[0]] + t;
      forall j | 0 <= j < |t| ensures Leq(k(s[0]), k(t[j])) {
        assert t[j] in multiset(t);
        assert t[j] == x || t[j] in multiset(s[1..]);
        if t[j] != x {
          var m :| 0 <= m < |s[1..]| && s[1..][m] == t[j];
          assert s[1 + m] == t[j];
        }
      }
    }
  }

  /** The result of the sort is in key order and a permutation of the input. */
  lemma {:induction false} OrdenarEstableOrdena<T>(s: seq<T>, k: T -> Clave)
    ensures Ordenada(OrdenarEstable(s, k), k)
    ensures multiset(OrdenarEstable(s, k)) == multiset(s)
  {
    if s != [] {
      OrdenarEstableOrdena(s[1..], k);
      InsertarOrdenada(s[0], OrdenarEstable(s[1..], k), k);
    }
  }

  lemma {:induction false} DeClaveConcat<T>(a: seq<T>, b: seq<T>, k: T -> Clave, c: Clave)
    ensures DeClave(a + b, k, c) == DeClave(a, k, c) + DeClave(b, k, c)
  {
    if a == [] {
      assert a + b == b;
    } else {
      var u := a[1..];
      assert a == [a[0]] + u;
      assert a + b == [a[0]] + (u + b);
      DeClaveConcat(u, b, k, c);
      DeClaveCons(a[0], u + b, k, c);
      DeClaveCons(a[0], u, k, c);
    }
  }

  lemma DeClaveCons<T>(y: T, u: seq<T>, k: T -> Clave, c: Clave)
    ensures DeClave([y] + u, k, c) == (if k(y) == c then [y] else []) + DeClave(u, k, c)
  {
    assert ([y] + u)[0] == y;
    assert ([y] + u)[1..] == u;
  }

  /** Inserting `x` puts it ahead of every element that carries its key. */
  lemma {:induction false} InsertarEstable<T>(x: T, s: seq<T>, k: T -> Clave, c: Clave)
    ensures DeClave(Insertar(x, s, k), k, c) == (if k(x) == c then [x] else []) + DeClave(s, k, c)
  {
    if s == [] || Leq(k(x), k(s[0])) {
      assert Insertar(x, s, k) == [x] + s;
      DeClaveCons(x, s, k, c);
    } else {
      var u := Insertar(x, s[1..], k);
      InsertarEstable(x, s[1..], k, c);
      assert Insertar(x, s, k) == [s[0]] + u;
      DeClaveCons(s[0], u, k, c);
      if k(s[0]) == c {
        // s[0] sorts strictly before x, so x does not carry the key c
        assert k(x) != c;
      }
    }
  }

  /** Stability: for every key, the elements carrying it appear in the same order as in the input. */
  lemma {:induction false} OrdenarEstableEsEstable<T>(s: seq<T>, k: T -> Clave, c: Clave)
    ensures DeClave(OrdenarEstable(s, k), k, c) == DeClave(s, k, c)
  {
    if s != [] {
      OrdenarEstableEsEstable(s[1..], k, c);
      InsertarEstable(s[0], OrdenarEstable(s[1..], k), k, c);
    }
  }

  lemma {:induction false} ExisteMinimo(s: set<int>)
    requires s != {}
    ensures exists m :: m in s && forall x :: x in s ==> m <= x
  {
    if forall z :: z !in s {
      assert false;
    }
    var y :| y in s;
    if s - {y} != {} {
      ExisteMinimo(s - {y});
      var m :| m in s - {y} && forall x :: x in s - {y} ==> m <= x;
      var lo := if y < m then y else m;
      forall x | x in s ensures lo <= x {
        if x != y { assert x in s - {y}; }
      }
      assert lo in s;
    } else {
      assert s == {y};
    }
  }

  /** The smallest element of a non-empty set of ids. */
  function Minimo(s: set<int>): (m: int)
    requires s != {}
    ensures m in s && forall x :: x in s ==> m <= x
  {
    ExisteMinimo(s);
    var m :| m in s && forall x :: x in s ==> m <= x;
    m
  }

  /** A set of ids listed in ascending order, the tie-break order chosen for `ORDER BY`. */
  function Ascendentes(s: set<int>): (r: seq<int>)
    ensures forall x :: x in s <==> x in r
    ensures forall i, j :: 0 <= i < j < |r| ==> r[i] < r[j]
    decreases |s|
  {
    if s == {} then []
    else
      var m := Minimo(s);
      [m] + Ascendentes(s - {m})
  }
}
