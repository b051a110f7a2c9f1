/**
 * The `cors_origins_list` property of the settings: the `CORS_ORIGINS`
 * string is either the wildcard or a comma-separated list of origins.
 */
module Config {

  /** The characters Python's `str.isspace` accepts, which `str.strip()` removes. */
  predicate EsEspacio(c: char)
  {
    ('\t' <= c <= '\r') || ('\U{1C}' <= c <= '\U{1F}') || c == ' '
    || c == '\U{85}' || c == '\U{A0}' || c == '\U{1680}'
    || ('\U{2000}' <= c <= '\U{200A}') || c == '\U{2028}' || c == '\U{2029}'
    || c == '\U{202F}' || c == '\U{205F}' || c == '\U{3000}'
  }

  function QuitarIzq(s: string): (r: string)
    ensures r == [] || !EsEspacio(r[0])
    ensures exists n :: 0 <= n <= |s| && r == s[n..] && forall i :: 0 <= i < n ==> EsEspacio(s[i])
  {
    if s != [] && EsEspacio(s[0]) then
      var r := QuitarIzq(s[1..]);
      var n :| 0 <= n <= |s[1..]| && r == s[1..][n..] && forall i :: 0 <= i < n ==> EsEspacio(s[1..][i]);
      assert r == s[n + 1..];
      assert forall i :: 0 <= i < n + 1 ==> EsEspacio(s[i]) by {
        forall i | 0 <= i < n + 1 ensures EsEspacio(s[i]) {
          if i > 0 { assert s[i] == s[1..][i - 1]; }
        }
      }
      r
    else
      assert s == s[0..];
      s
  }

  function QuitarDer(s: string): (r: string)
    ensures r == [] || !EsEspacio(r[|r| - 1])
    ensures exists n :: 0 <= n <= |s| && r == s[..n] && forall i :: n <= i < |s| ==> EsEspacio(s[i])
  {
    if s != [] && EsEspacio(s[|s| - 1]) then
      var t := s[..|s| - 1];
      var r := QuitarDer(t);
      var n :| 0 <= n <= |t| && r == t[..n] && forall i :: n <= i < |t| ==> EsEspacio(t[i]);
      assert r == s[..n];
      r
    else
      assert s == s[..|s|];
      s
  }

  /** Python's `str.strip()` with no argument; `StripRecorte` shows it is `s` without its whitespace prefix and suffix. */
  function Strip(s: string): (r: string)
    ensures r == [] || (!EsEspacio(r[0]) && !EsEspacio(r[|r| - 1]))
  {
    var l := QuitarIzq(s);
    PrimeroDer(l);
    QuitarDer(l)
  }

  /** What `strip` returns is a slice of its argument with only whitespace around it. */
  lemma StripRecorte(s: string)
    ensures exists i, j :: Recorte(s, Strip(s), i, j)
  {
    var a := CorteIzq(s);
    var n := CorteDer(s[a..]);
    RecorteCompuesto(s, a, n);
    assert Strip(s) == QuitarDer(QuitarIzq(s)) == s[a..][..n];
  }

  /** How many leading characters `QuitarIzq` removes. */
  lemma CorteIzq(s: string) returns (a: nat)
    ensures a <= |s| && QuitarIzq(s) == s[a..]
    ensures forall k :: 0 <= k < a ==> EsEspacio(s[k])
  {
    a :| 0 <= a <= |s| && QuitarIzq(s) == s[a..] && forall k :: 0 <= k < a ==> EsEspacio(s[k]);
  }

  /** Cutting whitespace from the back keeps the first character, if any is kept. */
  lemma PrimeroDer(s: string)
    ensures QuitarDer(s) != [] ==> QuitarDer(s)[0] == s[0]
  {
    var n := CorteDer(s);
  }

  /** How many characters `QuitarDer` keeps. */
  lemma CorteDer(s: string) returns (n: nat)
    ensures n <= |s| && QuitarDer(s) == s[..n]
    ensures forall k :: n <= k < |s| ==> EsEspacio(s[k])
  {
    n :| 0 <= n <= |s| && QuitarDer(s) == s[..n] && forall k :: n <= k < |s| ==> EsEspacio(s[k]);
  }

  /** Whitespace cut from the front, then from the back of what is left, leaves a slice. */
  lemma RecorteCompuesto(s: string, a: nat, n: nat)
    requires a <= |s| && n <= |s| - a
    requires forall k :: 0 <= k < a ==> EsEspacio(s[k])
    requires forall k :: n <= k < |s[a..]| ==> EsEspacio(s[a..][k])
    ensures Recorte(s, s[a..][..n], a, a + n)
  {
    TramoDeSufijo(s, a, n);
    forall k | a + n <= k < |s| ensures EsEspacio(s[k]) {
      assert s[k] == s[a..][k - a];
    }
  }

  /** A prefix of a suffix is a slice. */
  lemma TramoDeSufijo<T>(s: seq<T>, a: nat, n: nat)
    requires a + n <= |s|
    ensures s[a..][..n] == s[a..a + n]
  {
  }

  /** `r` is `s[i..j]`, and only whitespace lies outside it. */
  predicate Recorte(s: string, r: string, i: int, j: int)
  {
    && 0 <= i <= j <= |s| && r == s[i..j]
    && (forall k :: 0 <= k < i ==> EsEspacio(s[k]))
    && (forall k :: j <= k < |s| ==> EsEspacio(s[k]))
  }

  /** A string with no surrounding whitespace is left as it is. */
  lemma StripSinEspacios(s: string)
    requires s != [] && !EsEspacio(s[0]) && !EsEspacio(s[|s| - 1])
    ensures Strip(s) == s
  {
  }

  /** Python's `str.split(",")`: the pieces between commas, empty ones included. */
  function Dividir(s: string): (r: seq<string>)
    ensures |r| >= 1
  {
    if s == [] then [""]
    else
      var r := Dividir(s[1..]);
      if s[0] == ',' then [""] + r else [[s[0]] + r[0]] + r[1..]
  }

  function Comas(s: string): nat
  {
    if s == [] then 0 else (if s[0] == ',' then 1 else 0) + Comas(s[1..])
  }

  /** `",".join(parts)`, the inverse of `Dividir`. */
  function Unir(parts: seq<string>): string
  {
    if parts == [] then ""
    else if |parts| == 1 then parts[0]
    else parts[0] + "," + Unir(parts[1..])
  }

  /** There is one piece more than there are commas, and no piece holds a comma. */
  lemma {:induction false} DividirPiezas(s: string)
    ensures |Dividir(s)| == Comas(s) + 1
    ensures forall i :: 0 <= i < |Dividir(s)| ==> ',' !in Dividir(s)[i]
  {
    if s != [] {
      DividirPiezas(s[1..]);
    }
  }

  /** Joining the pieces with commas gives back the original string. */
  lemma {:induction false} UnirDividir(s: string)
    ensures Unir(Dividir(s)) == s
  {
    if s != [] {
      var r := Dividir(s[1..]);
      UnirDividir(s[1..]);
      assert s == [s[0]] + s[1..];
      if s[0] == ',' {
        if |r| == 1 {
          assert Unir([""] + r) == "" + "," + r[0];
        } else {
          assert ([""] + r)[1..] == r;
        }
      } else {
        var h := [s[0]] + r[0];
        if |r| == 1 {
          assert Unir([h] + r[1..]) == h;
        } else {
          assert ([h] + r[1..])[1..] == r[1..];
          assert Unir(r) == r[0] + "," + Unir(r[1..]);
        }
      }
    }
  }

  /** Splitting a comma-free string gives the string itself. */
  lemma {:induction false} DividirSinComa(a: string)
    requires ',' !in a
    ensures Dividir(a) == [a]
  {
    if a != [] {
      assert ',' !in a[1..] by {
        forall i | 0 <= i < |a[1..]| ensures a[1..][i] != ',' { assert a[1..][i] == a[i + 1]; }
      }
      DividirSinComa(a[1..]);
      assert a == [a[0]] + a[1..];
    }
  }

  /** A comma-free prefix followed by a comma becomes the first piece. */
  lemma {:induction false} DividirComa(a: string, b: string)
    requires ',' !in a
    ensures Dividir(a + "," + b) == [a] + Dividir(b)
  {
    if a == [] {
      assert a + "," + b == [','] + b;
      assert ([','] + b)[1..] == b;
    } else {
      assert (a + "," + b)[1..] == a[1..] + "," + b;
      assert ',' !in a[1..] by {
        forall i | 0 <= i < |a[1..]| ensures a[1..][i] != ',' { assert a[1..][i] == a[i + 1]; }
      }
      DividirComa(a[1..], b);
      assert a == [a[0]] + a[1..];
    }
  }

  /** The default value of `CORS_ORIGINS`. */
  const OrigenesPorDefecto: string := "http://localhost:3000,http://localhost:5173"

  function Limpiar(parts: seq<string>): (r: seq<string>)
    ensures |r| == |parts|
    ensures forall i :: 0 <= i < |r| ==> r[i] == Strip(parts[i])
  {
    if parts == [] then [] else [Strip(parts[0])] + Limpiar(parts[1..])
  }

  /** `cors_origins_list`: the wildcard alone, or every comma-separated piece stripped. */
  function CorsOriginsList(s: string): (r: seq<string>)
    ensures Strip(s) == "*" ==> r == ["*"]
    ensures Strip(s) != "*" ==> |r| == |Dividir(s)| == Comas(s) + 1
    ensures Strip(s) != "*" ==> forall i :: 0 <= i < |r| ==> r[i] == Strip(Dividir(s)[i])
  {
    DividirPiezas(s);
    if Strip(s) == "*" then ["*"] else Limpiar(Dividir(s))
  }

  /** Two comma-free origins without surrounding whitespace, joined by a comma, give both. */
  lemma {:induction false} DosOrigenes(a: string, b: string)
    requires ',' !in a && ',' !in b
    requires a != [] && !EsEspacio(a[0]) && !EsEspacio(a[|a| - 1])
    requires b != [] && !EsEspacio(b[0]) && !EsEspacio(b[|b| - 1])
    requires a != "*"
    ensures CorsOriginsList(a + "," + b) == [a, b]
  {
    var s := a + "," + b;
    DividirComa(a, b);
    DividirSinComa(b);
    StripSinEspacios(a);
    StripSinEspacios(b);
    assert s[0] == a[0] && s[|s| - 1] == b[|b| - 1];
    StripSinEspacios(s);
    assert |s| > 1;
  }

  /** The default setting allows the two local development front ends. */
  lemma OrigenesPorDefectoLista()
    ensures CorsOriginsList(OrigenesPorDefecto) == ["http://localhost:3000", "http://localhost:5173"]
  {
    var a := "http://localhost:3000";
    var b := "http://localhost:5173";
    assert OrigenesPorDefecto == a + "," + b;
    DosOrigenes(a, b);
  }

  /** A wildcard surrounded by whitespace is still the wildcard. */
  lemma ComodinConEspacios()
    ensures CorsOriginsList(" * ") == ["*"]
  {
    assert EsEspacio(' ') && !EsEspacio('*');
    assert " * "[1..] == "* ";
    assert QuitarIzq(" * ") == "* ";
    assert "* "[..1] == "*";
    assert QuitarDer("* ") == "*";
    assert Strip(" * ") == "*";
  }
}
