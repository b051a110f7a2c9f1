/**
 * The pickup-token generator: up to one hundred random alphanumeric
 * candidates, each checked against the tokens already stored.
 * The random draws are an oracle argument: draw `i` is the sequence of
 * alphabet positions `random.choices` picks on attempt `i`.
 */
module Tokens {
  import opened Base
  import opened Errores

  /** `string.ascii_uppercase`. */
  const Mayusculas: string := "ABCDEFGHIJKLMNOPQRSTUVWXYZ"
  /** `string.digits`. */
  const Cifras: string := "0123456789"
  /** `string.ascii_uppercase + string.digits`. */
  const Alfabeto: string := Mayusculas + Cifras
  const MaxIntentos: nat := 100
  const LongitudPorDefecto: nat := 8

  predicate EsAlfanumerico(c: char)
  {
    'A' <= c <= 'Z' || '0' <= c <= '9'
  }

  predicate EnAlfabeto(t: string)
  {
    forall i :: 0 <= i < |t| ==> EsAlfanumerico(t[i])
  }

  /** The alphabet holds exactly the upper-case letters and the digits. */
  lemma AlfabetoCompleto(c: char)
    ensures c in Alfabeto <==> EsAlfanumerico(c)
  {
    MayusculasCompletas(c);
    CifrasCompletas(c);
  }

  lemma MayusculasCompletas(c: char)
    ensures c in Mayusculas <==> 'A' <= c <= 'Z'
  {
  }

  lemma CifrasCompletas(c: char)
    ensures c in Cifras <==> '0' <= c <= '9'
  {
  }

  /** The candidate spelled by one draw of alphabet positions. */
  function Construir(picks: seq<nat>): (t: string)
    requires forall i :: 0 <= i < |picks| ==> picks[i] < |Alfabeto|
    ensures |t| == |picks|
    ensures EnAlfabeto(t)
    ensures forall i :: 0 <= i < |t| ==> t[i] == Alfabeto[picks[i]]
  {
    if picks == [] then ""
    else
      var c := Alfabeto[picks[0]];
      AlfabetoCompleto(c);
      [c] + Construir(picks[1..])
  }

  /** One draw: `longitud` positions inside the alphabet. */
  predicate SorteoValido(picks: seq<nat>, longitud: nat)
  {
    |picks| == longitud && forall j :: 0 <= j < |picks| ==> picks[j] < |Alfabeto|
  }

  /** One draw per attempt. */
  predicate SorteosValidos(sorteos: seq<seq<nat>>, longitud: nat)
  {
    |sorteos| >= MaxIntentos && forall i :: 0 <= i < |sorteos| ==> SorteoValido(sorteos[i], longitud)
  }

  function Candidato(sorteos: seq<seq<nat>>, longitud: nat, i: nat): (t: string)
    requires SorteosValidos(sorteos, longitud) && i < |sorteos|
    ensures |t| == longitud && EnAlfabeto(t)
  {
    assert SorteoValido(sorteos[i], longitud);
    Construir(sorteos[i])
  }

  /** The first `n` candidates are all tokens some order already holds. */
  predicate Colisionan(existentes: set<string>, sorteos: seq<seq<nat>>, longitud: nat, n: nat)
    requires SorteosValidos(sorteos, longitud) && n <= |sorteos|
  {
    forall j :: 0 <= j < n ==> Candidato(sorteos, longitud, j) in existentes
  }

  /** The attempts from the `i`-th on: the first candidate not yet held, or the error after the last. */
  function Intento(existentes: set<string>, sorteos: seq<seq<nat>>, longitud: nat, i: nat): Result<string, Fallo>
    requires SorteosValidos(sorteos, longitud) && i <= MaxIntentos
    decreases MaxIntentos - i
  {
    if i == MaxIntentos then Err(TokenAgotado)
    else if Candidato(sorteos, longitud, i) !in existentes then Ok(Candidato(sorteos, longitud, i))
    else Intento(existentes, sorteos, longitud, i + 1)
  }

  lemma {:induction false} IntentoCaracterizado(existentes: set<string>, sorteos: seq<seq<nat>>, longitud: nat, i: nat)
    requires SorteosValidos(sorteos, longitud) && i <= MaxIntentos
    requires Colisionan(existentes, sorteos, longitud, i)
    ensures var r := Intento(existentes, sorteos, longitud, i);
      && (r.Ok? ==> r.value !in existentes
                    && exists k :: i <= k < MaxIntentos && r.value == Candidato(sorteos, longitud, k)
                                  && Colisionan(existentes, sorteos, longitud, k))
      && (r.Err? <==> Colisionan(existentes, sorteos, longitud, MaxIntentos))
      && (r.Err? ==> r.error == TokenAgotado)
    decreases MaxIntentos - i
  {
    if i < MaxIntentos {
      if Candidato(sorteos, longitud, i) in existentes {
        assert Colisionan(existentes, sorteos, longitud, i + 1) by {
          forall j | 0 <= j < i + 1 ensures Candidato(sorteos, longitud, j) in existentes {
          }
        }
        IntentoCaracterizado(existentes, sorteos, longitud, i + 1);
      } else {
        assert !Colisionan(existentes, sorteos, longitud, MaxIntentos);
      }
    }
  }

  /** The token `generar_token_unico` returns for these draws. */
  function TokenUnico(existentes: set<string>, sorteos: seq<seq<nat>>, longitud: nat): (r: Result<string, Fallo>)
    requires SorteosValidos(sorteos, longitud)
    ensures r.Ok? ==> |r.value| == longitud && EnAlfabeto(r.value) && r.value !in existentes
    ensures r.Ok? ==> exists i :: 0 <= i < MaxIntentos && r.value == Candidato(sorteos, longitud, i)
                        && Colisionan(existentes, sorteos, longitud, i)
    ensures r.Err? <==> Colisionan(existentes, sorteos, longitud, MaxIntentos)
    ensures r.Err? ==> r.error == TokenAgotado
  {
    IntentoCaracterizado(existentes, sorteos, longitud, 0);
    Intento(existentes, sorteos, longitud, 0)
  }

  /** `generar_token_unico`: the first of the hundred candidates that no order holds yet. */
  method GenerarTokenUnico(existentes: set<string>, sorteos: seq<seq<nat>>, longitud: nat)
    returns (r: Result<string, Fallo>)
    requires SorteosValidos(sorteos, longitud)
    ensures r.Ok? ==> |r.value| == longitud && EnAlfabeto(r.value)
    ensures r.Ok? ==> r.value !in existentes
    ensures r.Ok? ==> exists i :: 0 <= i < MaxIntentos && r.value == Candidato(sorteos, longitud, i)
                        && Colisionan(existentes, sorteos, longitud, i)
    ensures r.Err? <==> Colisionan(existentes, sorteos, longitud, MaxIntentos)
    ensures r.Err? ==> r.error == TokenAgotado
    ensures r == TokenUnico(existentes, sorteos, longitud)
  {
    var i := 0;
    while i < MaxIntentos
      invariant i <= MaxIntentos
      invariant Intento(existentes, sorteos, longitud, i) == TokenUnico(existentes, sorteos, longitud)
    {
      var token := Candidato(sorteos, longitud, i);
      if token !in existentes {
        return Ok(token);
      }
      i := i + 1;
    }
    return Err(TokenAgotado);
  }
}
