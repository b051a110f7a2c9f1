/**
 * The in-memory notification manager (`GestorNotificaciones`): one bounded
 * FIFO buffer per role and one per addressed user, fed by `crear_evento`,
 * read by `obtener_eventos_recientes` and pruned by `limpiar_eventos_antiguos`.
 * Instants are integer seconds passed in by the caller.
 */
module Notificaciones {
  import opened Base
  import opened Errores
  import opened Orden

  /** A value of an event's `data` dictionary. */
  datatype Dato = Entero(n: int) | Texto(s: string) | Importe(centimos: int) | Nulo

  /** The `evento_id` is the manager's counter after the increment. */
  datatype Evento = Evento(
    eventoId: nat,
    tipo: string,
    destinatarioRol: int,
    destinatarioId: Option<int>,
    titulo: string,
    mensaje: string,
    data: map<string, Dato>,
    fechaCreacion: int)

  /** The arguments of one `crear_evento` call. */
  datatype Aviso = Aviso(
    tipo: string,
    destinatarioRol: int,
    titulo: string,
    mensaje: string,
    data: map<string, Dato>,
    destinatarioId: Option<int>)

  /** The manager's state: role buffers, user buffers and the id counter. */
  datatype Buzones = Buzones(porRol: map<int, seq<Evento>>, porUsuario: map<int, seq<Evento>>, contador: nat)

  const MaxEventosPorDefecto: nat := 1000
  const TiempoVidaMinutosPorDefecto: int := 60
  /** When no `desde` is given, the query looks back five minutes. */
  const VentanaPorDefecto: int := 5 * 60
  const LimitePorDefecto: int := 50
  const Roles: set<int> := {1, 2, 3, 4}

  function Min(a: int, b: int): int { if a <= b then a else b }
  function Max(a: int, b: int): int { if a >= b then a else b }

  // ---------- creation ----------

  /** The manager right after `__init__`: four empty role buffers, no user buffers. */
  function Inicial(): (b: Buzones)
    ensures b.porRol.Keys == Roles && b.porUsuario == map[] && b.contador == 0
    ensures forall r :: r in b.porRol ==> b.porRol[r] == []
  {
    Buzones(map[1 := [], 2 := [], 3 := [], 4 := []], map[], 0)
  }

  /** `deque(maxlen=max).append(e)`: the event goes last and the oldest ones drop off the front. */
  function Anexar(buf: seq<Evento>, e: Evento, max: nat): (r: seq<Evento>)
    ensures |r| == Min(|buf| + 1, max)
    ensures r == (buf + [e])[|buf| + 1 - |r|..]
    ensures r != [] ==> Ultimo(r) == e
  {
    var s := buf + [e];
    if |s| <= max then s else s[|s| - max..]
  }

  function Ultimo<T>(s: seq<T>): T
    requires s != []
  {
    s[|s| - 1]
  }

  /** A user's buffer, or a fresh empty deque for a user without one. */
  function Previo(porUsuario: map<int, seq<Evento>>, u: int): seq<Evento>
  {
    if u in porUsuario then porUsuario[u] else []
  }

  /** The event `crear_evento` builds from the counter after its increment. */
  function Nuevo(b: Buzones, a: Aviso, ahora: int): (e: Evento)
  {
    Evento(b.contador + 1, a.tipo, a.destinatarioRol, a.destinatarioId, a.titulo, a.mensaje, a.data, ahora)
  }

  /**
   * The state after `crear_evento`. The counter is incremented before the role
   * buffer is looked up, so an unknown role still consumes an id (and raises).
   * A user buffer is created or extended only for a truthy `destinatario_id`.
   */
  function Publicado(b: Buzones, a: Aviso, max: nat, ahora: int): (r: Buzones)
    ensures r.porRol.Keys == b.porRol.Keys
  {
    var e := Nuevo(b, a, ahora);
    if a.destinatarioRol !in b.porRol then b.(contador := b.contador + 1)
    else
      var porRol := b.porRol[a.destinatarioRol := Anexar(b.porRol[a.destinatarioRol], e, max)];
      if Truthy(a.destinatarioId) then
        var u := a.destinatarioId.value;
        Buzones(porRol, b.porUsuario[u := Anexar(Previo(b.porUsuario, u), e, max)], b.contador + 1)
      else
        Buzones(porRol, b.porUsuario, b.contador + 1)
  }

  /** What `crear_evento` returns: the event, or the `KeyError` of an unknown role. */
  function Creado(b: Buzones, a: Aviso, ahora: int): (r: Result<Evento, Fallo>)
    ensures r.Ok? <==> a.destinatarioRol in b.porRol
    ensures r.Ok? ==> r.value.eventoId == b.contador + 1 && r.value.fechaCreacion == ahora
    ensures r.Err? ==> r.error == RolDesconocido
  {
    if a.destinatarioRol in b.porRol then Ok(Nuevo(b, a, ahora)) else Err(RolDesconocido)
  }

  /** Events published one after another, as the helper publishers do. */
  function PublicarTodos(b: Buzones, avisos: seq<Aviso>, max: nat, ahora: int): (r: Buzones)
    ensures r.contador == b.contador + |avisos|
    ensures r.porRol.Keys == b.porRol.Keys
    decreases |avisos|
  {
    if avisos == [] then b
    else PublicarTodos(Publicado(b, avisos[0], max, ahora), avisos[1..], max, ahora)
  }

  /** Publishing two batches one after the other is publishing their concatenation. */
  lemma {:induction false} PublicarTodosConcat(b: Buzones, x: seq<Aviso>, y: seq<Aviso>, max: nat, ahora: int)
    ensures PublicarTodos(b, x + y, max, ahora) == PublicarTodos(PublicarTodos(b, x, max, ahora), y, max, ahora)
    decreases |x|
  {
    if x == [] {
      assert x + y == y;
    } else {
      assert (x + y)[1..] == x[1..] + y;
      PublicarTodosConcat(Publicado(b, x[0], max, ahora), x[1..], y, max, ahora);
    }
  }

  /** The role buffer ends with the new event, grows by one up to `max`, and no other role buffer changes. */
  lemma PublicadoEnRol(b: Buzones, a: Aviso, max: nat, ahora: int)
    requires a.destinatarioRol in b.porRol
    ensures Publicado(b, a, max, ahora).porRol.Keys == b.porRol.Keys
    ensures |Publicado(b, a, max, ahora).porRol[a.destinatarioRol]| == Min(|b.porRol[a.destinatarioRol]| + 1, max)
    ensures Publicado(b, a, max, ahora).porRol[a.destinatarioRol]
         == Anexar(b.porRol[a.destinatarioRol], Nuevo(b, a, ahora), max)
    ensures max > 0 ==> Ultimo(Publicado(b, a, max, ahora).porRol[a.destinatarioRol]) == Nuevo(b, a, ahora)
    ensures forall q :: q in b.porRol && q != a.destinatarioRol ==> Publicado(b, a, max, ahora).porRol[q] == b.porRol[q]
  {
  }

  /** A user buffer is touched exactly when the recipient id is truthy. */
  lemma PublicadoSinUsuario(b: Buzones, a: Aviso, max: nat, ahora: int)
    requires !Truthy(a.destinatarioId)
    ensures Publicado(b, a, max, ahora).porUsuario == b.porUsuario
  {
  }

  /** For a truthy recipient, only that user's buffer is created or appended to. */
  lemma PublicadoEnUsuario(b: Buzones, a: Aviso, max: nat, ahora: int)
    requires a.destinatarioRol in b.porRol && Truthy(a.destinatarioId)
    ensures Publicado(b, a, max, ahora).porUsuario.Keys == b.porUsuario.Keys + {a.destinatarioId.value}
    ensures Publicado(b, a, max, ahora).porUsuario[a.destinatarioId.value]
         == Anexar(Previo(b.porUsuario, a.destinatarioId.value), Nuevo(b, a, ahora), max)
    ensures forall v :: v in b.porUsuario && v != a.destinatarioId.value ==>
      Publicado(b, a, max, ahora).porUsuario[v] == b.porUsuario[v]
  {
  }

  /** Id 0 counts as no recipient: an event addressed to user 0 creates no user buffer. */
  lemma UsuarioCeroNoGuarda(b: Buzones, a: Aviso, max: nat, ahora: int)
    requires a.destinatarioId == Some(0)
    ensures Publicado(b, a, max, ahora).porUsuario == b.porUsuario
  {
  }

  /** An unknown role consumes an id and stores nothing. */
  lemma PublicadoRolDesconocido(b: Buzones, a: Aviso, max: nat, ahora: int)
    requires a.destinatarioRol !in b.porRol
    ensures Publicado(b, a, max, ahora) == b.(contador := b.contador + 1)
    ensures Creado(b, a, ahora) == Err(RolDesconocido)
  {
  }

  // ---------- the invariant ----------

  /** Ids strictly increase from front to back and never exceed the counter. */
  predicate IdsCrecientes(buf: seq<Evento>, contador: nat)
  {
    && (forall i, j :: 0 <= i < j < |buf| ==> buf[i].eventoId < buf[j].eventoId)
    && (forall i :: 0 <= i < |buf| ==> buf[i].eventoId <= contador)
  }

  predicate BufferDeRol(buf: seq<Evento>, rol: int, max: nat, contador: nat)
  {
    |buf| <= max && IdsCrecientes(buf, contador)
    && forall i :: 0 <= i < |buf| ==> buf[i].destinatarioRol == rol
  }

  predicate BufferDeUsuario(buf: seq<Evento>, u: int, max: nat, contador: nat)
  {
    u != 0 && |buf| <= max && IdsCrecientes(buf, contador)
    && forall i :: 0 <= i < |buf| ==> buf[i].destinatarioId == Some(u)
  }

  /** The four role buffers always exist and each holds only its own events, in order, with ids up to `c`. */
  predicate RolesValidos(porRol: map<int, seq<Evento>>, max: nat, c: nat)
  {
    && 1 in porRol && 2 in porRol && 3 in porRol && 4 in porRol
    && forall r :: r in porRol ==> BufferDeRol(porRol[r], r, max, c)
  }

  /** Every user buffer holds only events addressed to that (non-zero) user, in order, with ids up to `c`. */
  predicate UsuariosValidos(porUsuario: map<int, seq<Evento>>, max: nat, c: nat)
  {
    forall u :: u in porUsuario ==> BufferDeUsuario(porUsuario[u], u, max, c)
  }

  /**
   * The manager's invariant: every buffer respects `maxlen`, holds events in
   * creation order with ids up to the counter, and holds only events addressed to it.
   */
  predicate BuzonesValidos(b: Buzones, max: nat)
  {
    RolesValidos(b.porRol, max, b.contador) && UsuariosValidos(b.porUsuario, max, b.contador)
  }

  lemma InicialValido(max: nat)
    ensures BuzonesValidos(Inicial(), max)
  {
  }

  /** Appending an event with a fresh, larger id keeps a buffer increasing. */
  lemma AnexarCreciente(buf: seq<Evento>, e: Evento, max: nat, contador: nat)
    requires IdsCrecientes(buf, contador) && e.eventoId == contador + 1
    ensures IdsCrecientes(Anexar(buf, e, max), contador + 1)
  {
    var s := buf + [e];
    assert IdsCrecientes(s, contador + 1) by {
      forall i, j | 0 <= i < j < |s| ensures s[i].eventoId < s[j].eventoId {
        if j < |buf| { assert s[i] == buf[i] && s[j] == buf[j]; }
      }
    }
    var r := Anexar(buf, e, max);
    var d := |s| - |r|;
    assert forall i :: 0 <= i < |r| ==> r[i] == s[d + i];
  }

  lemma {:induction false} AnexarDestino(buf: seq<Evento>, e: Evento, max: nat)
    ensures forall i :: 0 <= i < |Anexar(buf, e, max)| ==>
      Anexar(buf, e, max)[i] in buf || Anexar(buf, e, max)[i] == e
  {
    var s := buf + [e];
    var r := Anexar(buf, e, max);
    var d := |s| - |r|;
    forall i | 0 <= i < |r| ensures r[i] in buf || r[i] == e {
      assert r[i] == s[d + i];
      if d + i < |buf| { assert s[d + i] == buf[d + i]; }
    }
  }

  lemma BufferDeRolAnexar(buf: seq<Evento>, e: Evento, rol: int, max: nat, contador: nat)
    requires BufferDeRol(buf, rol, max, contador) && e.eventoId == contador + 1 && e.destinatarioRol == rol
    ensures BufferDeRol(Anexar(buf, e, max), rol, max, contador + 1)
  {
    AnexarCreciente(buf, e, max, contador);
    AnexarDestino(buf, e, max);
    var r := Anexar(buf, e, max);
    forall i | 0 <= i < |r| ensures r[i].destinatarioRol == rol {
      if r[i] != e {
        var k :| 0 <= k < |buf| && buf[k] == r[i];
      }
    }
  }

  lemma BufferDeUsuarioAnexar(buf: seq<Evento>, e: Evento, u: int, max: nat, contador: nat)
    requires u != 0 && |buf| <= max && IdsCrecientes(buf, contador)
    requires forall i :: 0 <= i < |buf| ==> buf[i].destinatarioId == Some(u)
    requires e.eventoId == contador + 1 && e.destinatarioId == Some(u)
    ensures BufferDeUsuario(Anexar(buf, e, max), u, max, contador + 1)
  {
    AnexarCreciente(buf, e, max, contador);
    AnexarDestino(buf, e, max);
    var r := Anexar(buf, e, max);
    forall i | 0 <= i < |r| ensures r[i].destinatarioId == Some(u) {
      if r[i] != e {
        var k :| 0 <= k < |buf| && buf[k] == r[i];
      }
    }
  }

  /** A buffer stays valid under a larger counter. */
  lemma IdsCrecientesMonotono(buf: seq<Evento>, c: nat, c2: nat)
    requires IdsCrecientes(buf, c) && c <= c2
    ensures IdsCrecientes(buf, c2)
  {
  }

  lemma RolesMonotono(porRol: map<int, seq<Evento>>, max: nat, c: nat)
    requires RolesValidos(porRol, max, c)
    ensures RolesValidos(porRol, max, c + 1)
  {
    forall r | r in porRol ensures BufferDeRol(porRol[r], r, max, c + 1) {
      IdsCrecientesMonotono(porRol[r], c, c + 1);
    }
  }

  lemma UsuariosMonotono(porUsuario: map<int, seq<Evento>>, max: nat, c: nat)
    requires UsuariosValidos(porUsuario, max, c)
    ensures UsuariosValidos(porUsuario, max, c + 1)
  {
    forall u | u in porUsuario ensures BufferDeUsuario(porUsuario[u], u, max, c + 1) {
      IdsCrecientesMonotono(porUsuario[u], c, c + 1);
    }
  }

  /** Appending the next event to its role buffer keeps the role buffers valid. */
  lemma RolesAnexar(porRol: map<int, seq<Evento>>, q: int, e: Evento, max: nat, c: nat)
    requires RolesValidos(porRol, max, c) && q in porRol
    requires e.eventoId == c + 1 && e.destinatarioRol == q
    ensures RolesValidos(porRol[q := Anexar(porRol[q], e, max)], max, c + 1)
  {
    RolesMonotono(porRol, max, c);
    BufferDeRolAnexar(porRol[q], e, q, max, c);
  }

  /** Appending the next event to the buffer of the user it is addressed to keeps the user buffers valid. */
  lemma UsuariosAnexar(porUsuario: map<int, seq<Evento>>, u: int, e: Evento, max: nat, c: nat)
    requires UsuariosValidos(porUsuario, max, c) && u != 0
    requires e.eventoId == c + 1 && e.destinatarioId == Some(u)
    ensures UsuariosValidos(porUsuario[u := Anexar(Previo(porUsuario, u), e, max)], max, c + 1)
  {
    UsuariosMonotono(porUsuario, max, c);
    if u in porUsuario {
      assert BufferDeUsuario(porUsuario[u], u, max, c);
    }
    BufferDeUsuarioAnexar(Previo(porUsuario, u), e, u, max, c);
  }

  /** `crear_evento` keeps the invariant. */
  lemma PublicadoPreservaValidez(b: Buzones, a: Aviso, max: nat, ahora: int)
    requires BuzonesValidos(b, max)
    ensures BuzonesValidos(Publicado(b, a, max, ahora), max)
  {
    var q := a.destinatarioRol;
    if q !in b.porRol {
      RolesMonotono(b.porRol, max, b.contador);
      UsuariosMonotono(b.porUsuario, max, b.contador);
    } else {
      RolesAnexar(b.porRol, q, Nuevo(b, a, ahora), max, b.contador);
      if Truthy(a.destinatarioId) {
        UsuariosAnexar(b.porUsuario, a.destinatarioId.value, Nuevo(b, a, ahora), max, b.contador);
      } else {
        UsuariosMonotono(b.porUsuario, max, b.contador);
      }
    }
  }

  /** Ids are distinct: the new event's id is larger than that of every stored event. */
  lemma NuevoIdMayor(b: Buzones, a: Aviso, max: nat, ahora: int, e: Evento)
    requires BuzonesValidos(b, max)
    requires (exists q :: q in b.porRol && e in b.porRol[q]) || (exists u :: u in b.porUsuario && e in b.porUsuario[u])
    ensures e.eventoId < Nuevo(b, a, ahora).eventoId
  {
    if exists q :: q in b.porRol && e in b.porRol[q] {
      var q :| q in b.porRol && e in b.porRol[q];
      assert BufferDeRol(b.porRol[q], q, max, b.contador);
    } else {
      var u :| u in b.porUsuario && e in b.porUsuario[u];
      assert BufferDeUsuario(b.porUsuario[u], u, max, b.contador);
    }
  }

  lemma {:induction false} PublicarTodosPreservaValidez(b: Buzones, avisos: seq<Aviso>, max: nat, ahora: int)
    requires BuzonesValidos(b, max)
    ensures BuzonesValidos(PublicarTodos(b, avisos, max, ahora), max)
    decreases |avisos|
  {
    if avisos != [] {
      PublicadoPreservaValidez(b, avisos[0], max, ahora);
      PublicarTodosPreservaValidez(Publicado(b, avisos[0], max, ahora), avisos[1..], max, ahora);
    }
  }

  // ---------- query ----------

  /** The user's own buffer first (for a truthy id that has one), then the role buffer. */
  function Candidatos(b: Buzones, rolId: int, usuarioId: Option<int>): (r: seq<Evento>)
    requires rolId in b.porRol
    ensures Truthy(usuarioId) && usuarioId.value in b.porUsuario ==>
      r == b.porUsuario[usuarioId.value] + b.porRol[rolId]
    ensures !(Truthy(usuarioId) && usuarioId.value in b.porUsuario) ==> r == b.porRol[rolId]
  {
    var propios := if Truthy(usuarioId) && usuarioId.value in b.porUsuario then b.porUsuario[usuarioId.value] else [];
    propios + b.porRol[rolId]
  }

  /** Recent enough, of the requested type, and broadcast or addressed to the caller. */
  predicate Visible(e: Evento, desde: int, tipo: Option<string>, usuarioId: Option<int>)
  {
    && e.fechaCreacion >= desde
    && (tipo.None? || e.tipo == tipo.value)
    && (e.destinatarioId.None? || e.destinatarioId == usuarioId)
  }

  /** The list-comprehension filter: visible events keep their multiplicity and order. */
  function Filtrar(s: seq<Evento>, desde: int, tipo: Option<string>, usuarioId: Option<int>): (r: seq<Evento>)
    ensures forall e :: multiset(r)[e] == if Visible(e, desde, tipo, usuarioId) then multiset(s)[e] else 0
    ensures forall e :: e in r ==> Visible(e, desde, tipo, usuarioId)
    ensures multiset(r) <= multiset(s)
  {
    if s == [] then []
    else
      var resto := Filtrar(s[1..], desde, tipo, usuarioId);
      assert s == [s[0]] + s[1..];
      var r := (if Visible(s[0], desde, tipo, usuarioId) then [s[0]] else []) + resto;
      assert forall e :: e in r ==> Visible(e, desde, tipo, usuarioId) by {
        forall e | e in r ensures Visible(e, desde, tipo, usuarioId) {
          assert e in multiset(r);
        }
      }
      r
  }

  /** The slice `s[:limit]`, where a negative limit drops that many elements from the end. */
  function Recortar<T>(s: seq<T>, limit: int): (r: seq<T>)
    ensures limit >= 0 ==> |r| == Min(limit, |s|)
    ensures limit < 0 ==> |r| == Max(0, |s| + limit)
    ensures r == s[..|r|]
    ensures multiset(r) <= multiset(s)
  {
    var r := if limit >= 0 then s[..Min(limit, |s|)] else s[..Max(0, |s| + limit)];
    assert s == r + s[|r|..];
    r
  }

  /** A prefix of a newest-first list is newest first. */
  lemma PrefijoMasRecientes(s: seq<Evento>, n: nat)
    requires MasRecientesPrimero(s) && n <= |s|
    ensures MasRecientesPrimero(s[..n])
  {
    forall i, j | 0 <= i < j < n ensures s[..n][i].fechaCreacion >= s[..n][j].fechaCreacion {
      assert s[..n][i] == s[i] && s[..n][j] == s[j];
    }
  }

  /** What the newest-first cut leaves out is no newer than anything it keeps. */
  lemma RecortarLosMasRecientes(s: seq<Evento>, limit: int, x: Evento)
    requires MasRecientesPrimero(s)
    requires x in multiset(s) - multiset(Recortar(s, limit))
    ensures forall y :: y in Recortar(s, limit) ==> x.fechaCreacion <= y.fechaCreacion
  {
    var r := Recortar(s, limit);
    var j := IndiceFuera(s, |r|, x);
    forall y | y in r ensures x.fechaCreacion <= y.fechaCreacion {
      var i :| 0 <= i < |r| && r[i] == y;
      assert s[i] == y && i < j;
    }
  }

  /** An element counted more often in `s` than in its prefix sits after that prefix. */
  lemma IndiceFuera<T>(s: seq<T>, n: nat, x: T) returns (j: nat)
    requires n <= |s| && x in multiset(s) - multiset(s[..n])
    ensures n <= j < |s| && s[j] == x
  {
    assert s == s[..n] + s[n..];
    assert multiset(s) == multiset(s[..n]) + multiset(s[n..]);
    assert x in multiset(s[n..]);
    var k :| 0 <= k < |s[n..]| && s[n..][k] == x;
    j := n + k;
  }

  /** Sorting key of the newest-first sort: `reverse=True` on a stable sort is a stable ascending sort on the negated time. */
  function ClaveReciente(e: Evento): Clave
  {
    Valor(-e.fechaCreacion)
  }

  predicate MasRecientesPrimero(s: seq<Evento>)
  {
    forall i, j :: 0 <= i < j < |s| ==> s[i].fechaCreacion >= s[j].fechaCreacion
  }

  lemma OrdenadaEsMasRecientesPrimero(s: seq<Evento>)
    requires Ordenada(s, ClaveReciente)
    ensures MasRecientesPrimero(s)
  {
    forall i, j | 0 <= i < j < |s| ensures s[i].fechaCreacion >= s[j].fechaCreacion {
      assert Leq(ClaveReciente(s[i]), ClaveReciente(s[j]));
    }
  }

  /** The filtered candidates, newest first, before the limit is applied. */
  function Ordenados(b: Buzones, rolId: int, usuarioId: Option<int>, desde: int, tipo: Option<string>): (r: seq<Evento>)
    requires rolId in b.porRol
    ensures multiset(r) == multiset(Filtrar(Candidatos(b, rolId, usuarioId), desde, tipo, usuarioId))
    ensures MasRecientesPrimero(r)
  {
    var f := Filtrar(Candidatos(b, rolId, usuarioId), desde, tipo, usuarioId);
    OrdenarEstableOrdena(f, ClaveReciente);
    OrdenadaEsMasRecientesPrimero(OrdenarEstable(f, ClaveReciente));
    OrdenarEstable(f, ClaveReciente)
  }

  /** Sorting keeps the number of filtered candidates. */
  lemma OrdenadosConservaTamano(b: Buzones, rolId: int, usuarioId: Option<int>, desde: int, tipo: Option<string>)
    requires rolId in b.porRol
    ensures |Ordenados(b, rolId, usuarioId, desde, tipo)| == |Filtrar(Candidatos(b, rolId, usuarioId), desde, tipo, usuarioId)|
  {
    var s := Ordenados(b, rolId, usuarioId, desde, tipo);
    var f := Filtrar(Candidatos(b, rolId, usuarioId), desde, tipo, usuarioId);
    assert |multiset(s)| == |s| && |multiset(f)| == |f|;
  }

  /** The cut-off instant: the given `desde`, or five minutes before now. */
  function Desde(desde: Option<int>, ahora: int): int
  {
    if desde.None? then ahora - VentanaPorDefecto else desde.value
  }

  /**
   * `obtener_eventos_recientes`: the visible events of the user's buffer and the
   * role buffer, newest first, cut at `limit`. A role without a buffer raises.
   */
  function Consulta(b: Buzones, rolId: int, usuarioId: Option<int>, desde: Option<int>, tipo: Option<string>,
                    limit: int, ahora: int): (r: Result<seq<Evento>, Fallo>)
    ensures r.Err? <==> rolId !in b.porRol
    ensures r.Err? ==> r.error == RolDesconocido
    ensures r.Ok? ==> forall e :: e in r.value ==> Visible(e, Desde(desde, ahora), tipo, usuarioId)
    ensures r.Ok? ==> MasRecientesPrimero(r.value)
    ensures r.Ok? && limit >= 0 ==> |r.value| <= limit
    ensures r.Ok? ==> multiset(r.value) <= multiset(Filtrar(Candidatos(b, rolId, usuarioId), Desde(desde, ahora), tipo, usuarioId))
    ensures r.Ok? ==> multiset(r.value) <= multiset(Candidatos(b, rolId, usuarioId))
    ensures r.Ok? && limit >= 0 ==>
      |r.value| == Min(limit, |Filtrar(Candidatos(b, rolId, usuarioId), Desde(desde, ahora), tipo, usuarioId)|)
    ensures r.Ok? && limit < 0 ==>
      |r.value| == Max(0, |Filtrar(Candidatos(b, rolId, usuarioId), Desde(desde, ahora), tipo, usuarioId)| + limit)
  {
    if rolId !in b.porRol then Err(RolDesconocido)
    else
      var s := Ordenados(b, rolId, usuarioId, Desde(desde, ahora), tipo);
      OrdenadosConservaTamano(b, rolId, usuarioId, Desde(desde, ahora), tipo);
      var r := Recortar(s, limit);
      PrefijoMasRecientes(s, |r|);
      assert forall e :: e in r ==> e in multiset(s);
      Ok(r)
  }

  /** With room for all of them, the query returns exactly the visible candidates. */
  lemma ConsultaCompleta(b: Buzones, rolId: int, usuarioId: Option<int>, desde: Option<int>, tipo: Option<string>,
                         limit: int, ahora: int)
    requires rolId in b.porRol
    requires |Filtrar(Candidatos(b, rolId, usuarioId), Desde(desde, ahora), tipo, usuarioId)| <= limit
    ensures Consulta(b, rolId, usuarioId, desde, tipo, limit, ahora).Ok?
    ensures multiset(Consulta(b, rolId, usuarioId, desde, tipo, limit, ahora).value)
         == multiset(Filtrar(Candidatos(b, rolId, usuarioId), Desde(desde, ahora), tipo, usuarioId))
  {
    var s := Ordenados(b, rolId, usuarioId, Desde(desde, ahora), tipo);
    assert |s| == |Filtrar(Candidatos(b, rolId, usuarioId), Desde(desde, ahora), tipo, usuarioId)| by {
      assert |multiset(s)| == |s|;
    }
    assert Recortar(s, limit) == s;
  }

  /** A visible candidate left out by the limit is no newer than anything returned. */
  lemma ConsultaLosMasRecientes(b: Buzones, rolId: int, usuarioId: Option<int>, desde: Option<int>, tipo: Option<string>,
                                limit: int, ahora: int, x: Evento)
    requires rolId in b.porRol
    requires var r := Consulta(b, rolId, usuarioId, desde, tipo, limit, ahora).value;
      x in multiset(Filtrar(Candidatos(b, rolId, usuarioId), Desde(desde, ahora), tipo, usuarioId)) - multiset(r)
    ensures forall y :: y in Consulta(b, rolId, usuarioId, desde, tipo, limit, ahora).value ==>
      x.fechaCreacion <= y.fechaCreacion
  {
    RecortarLosMasRecientes(Ordenados(b, rolId, usuarioId, Desde(desde, ahora), tipo), limit, x);
  }

  /**
   * A new event reaches everyone it is addressed to: with `maxlen > 0` it is a
   * candidate of every query on its role by a caller it is visible to, and it
   * passes the filter from any `desde` up to its creation instant.
   */
  lemma PublicadoVisible(b: Buzones, a: Aviso, max: nat, ahora: int, usuarioId: Option<int>, desde: int, tipo: Option<string>)
    requires a.destinatarioRol in b.porRol && max > 0 && desde <= ahora
    requires a.destinatarioId.None? || (a.destinatarioId == usuarioId && Truthy(usuarioId))
    requires tipo.None? || tipo.value == a.tipo
    ensures Nuevo(b, a, ahora) in Filtrar(Candidatos(Publicado(b, a, max, ahora), a.destinatarioRol, usuarioId), desde, tipo, usuarioId)
  {
    var e := Nuevo(b, a, ahora);
    var p := Publicado(b, a, max, ahora);
    PublicadoEnRol(b, a, max, ahora);
    var buf := p.porRol[a.destinatarioRol];
    assert e in buf by {
      assert Ultimo(buf) == e;
    }
    var c := Candidatos(p, a.destinatarioRol, usuarioId);
    assert multiset(c)[e] > 0 by {
      assert c == (c[..|c| - |buf|]) + buf;
      assert multiset(c) == multiset(c[..|c| - |buf|]) + multiset(buf);
    }
    assert Visible(e, desde, tipo, usuarioId);
  }

  /** A truthy caller id must match a user-addressed event for it to be visible to that caller. */
  lemma ConsultaAjenaInvisible(e: Evento, desde: int, tipo: Option<string>, usuarioId: Option<int>)
    requires e.destinatarioId.Some? && e.destinatarioId != usuarioId
    ensures !Visible(e, desde, tipo, usuarioId)
  {
  }

  /** `contador_no_vistos`: the size of a default-limit query, hence at most 50. */
  function ContadorNoVistos(b: Buzones, rolId: int, usuarioId: Option<int>, desde: Option<int>, ahora: int): (r: Result<nat, Fallo>)
    ensures r.Err? <==> rolId !in b.porRol
    ensures r.Ok? ==> r.value <= LimitePorDefecto
    ensures r.Ok? ==> r.value == |Consulta(b, rolId, usuarioId, desde, None, LimitePorDefecto, ahora).value|
  {
    var q := Consulta(b, rolId, usuarioId, desde, None, LimitePorDefecto, ahora);
    if q.Err? then Err(q.error) else Ok(|q.value|)
  }

  /** Two events with the same key are left in place by the sort. */
  lemma OrdenarDosIguales(e: Evento)
    ensures OrdenarEstable([e, e], ClaveReciente) == [e, e]
  {
    assert [e, e][1..] == [e];
    assert OrdenarEstable([e], ClaveReciente) == [e] by {
      assert [e][1..] == [];
    }
    assert Insertar(e, [e], ClaveReciente) == [e, e];
  }

  /** The filter drops nothing from a list of visible events. */
  lemma {:induction false} FiltrarVisibles(s: seq<Evento>, desde: int, tipo: Option<string>, usuarioId: Option<int>)
    requires forall i :: 0 <= i < |s| ==> Visible(s[i], desde, tipo, usuarioId)
    ensures Filtrar(s, desde, tipo, usuarioId) == s
  {
    if s != [] {
      var t := s[1..];
      forall i | 0 <= i < |t| ensures Visible(t[i], desde, tipo, usuarioId) {
        assert t[i] == s[i + 1];
      }
      FiltrarVisibles(t, desde, tipo, usuarioId);
      assert s == [s[0]] + t;
      FiltrarVisible(s[0], t, desde, tipo, usuarioId);
    }
  }

  /** A visible event at the front is kept at the front. */
  lemma FiltrarVisible(x: Evento, t: seq<Evento>, desde: int, tipo: Option<string>, usuarioId: Option<int>)
    requires Visible(x, desde, tipo, usuarioId)
    ensures Filtrar([x] + t, desde, tipo, usuarioId) == [x] + Filtrar(t, desde, tipo, usuarioId)
  {
    assert ([x] + t)[0] == x;
    assert ([x] + t)[1..] == t;
  }

  /** The first event published on a fresh manager, for a known role and a truthy user, is alone in both buffers. */
  lemma PrimerAviso(a: Aviso, ahora: int)
    requires a.destinatarioRol in Roles && Truthy(a.destinatarioId)
    ensures Publicado(Inicial(), a, MaxEventosPorDefecto, ahora).porRol[a.destinatarioRol] == [Nuevo(Inicial(), a, ahora)]
    ensures a.destinatarioId.value in Publicado(Inicial(), a, MaxEventosPorDefecto, ahora).porUsuario
    ensures Publicado(Inicial(), a, MaxEventosPorDefecto, ahora).porUsuario[a.destinatarioId.value] == [Nuevo(Inicial(), a, ahora)]
  {
    PublicadoEnRol(Inicial(), a, MaxEventosPorDefecto, ahora);
    PublicadoEnUsuario(Inicial(), a, MaxEventosPorDefecto, ahora);
    assert Anexar([], Nuevo(Inicial(), a, ahora), MaxEventosPorDefecto) == [Nuevo(Inicial(), a, ahora)];
  }

  /**
   * No deduplication: an event addressed to a user sits in both its role buffer
   * and its user buffer, and that user's query returns it twice.
   */
  lemma SinDeduplicar(a: Aviso, ahora: int)
    requires a.destinatarioRol in Roles && Truthy(a.destinatarioId)
    ensures Consulta(Publicado(Inicial(), a, MaxEventosPorDefecto, ahora), a.destinatarioRol, a.destinatarioId,
                     None, None, LimitePorDefecto, ahora)
         == Ok([Nuevo(Inicial(), a, ahora), Nuevo(Inicial(), a, ahora)])
  {
    var e := Nuevo(Inicial(), a, ahora);
    var b := Publicado(Inicial(), a, MaxEventosPorDefecto, ahora);
    var d := Desde(None, ahora);
    PrimerAviso(a, ahora);
    var c := Candidatos(b, a.destinatarioRol, a.destinatarioId);
    assert c == [e, e];
    FiltrarVisibles(c, d, None, a.destinatarioId);
    OrdenarDosIguales(e);
    assert Ordenados(b, a.destinatarioRol, a.destinatarioId, d, None) == [e, e];
    assert Recortar([e, e], LimitePorDefecto) == [e, e];
  }

  // ---------- purge ----------

  /** The events of one buffer created at or after `limite`, in their order. */
  function Vigentes(s: seq<Evento>, limite: int): (r: seq<Evento>)
    ensures forall e :: e in r ==> e in s && e.fechaCreacion >= limite
    ensures |r| <= |s|
  {
    if s == [] then []
    else (if s[0].fechaCreacion >= limite then [s[0]] else []) + Vigentes(s[1..], limite)
  }

  /** The filter distributes over concatenation, so it keeps the surviving events in their order. */
  lemma {:induction false} VigentesConcat(a: seq<Evento>, b: seq<Evento>, limite: int)
    ensures Vigentes(a + b, limite) == Vigentes(a, limite) + Vigentes(b, limite)
  {
    if a == [] {
      assert a + b == b;
    } else {
      assert (a + b)[0] == a[0];
      assert (a + b)[1..] == a[1..] + b;
      VigentesConcat(a[1..], b, limite);
    }
  }

  /** Every event recent enough survives. */
  lemma {:induction false} VigentesConserva(s: seq<Evento>, limite: int, e: Evento)
    requires e in s && e.fechaCreacion >= limite
    ensures e in Vigentes(s, limite)
  {
    if s[0] != e {
      VigentesConserva(s[1..], limite, e);
    }
  }

  /** Purging twice removes nothing more. */
  lemma {:induction false} VigentesIdempotente(s: seq<Evento>, limite: int)
    ensures Vigentes(Vigentes(s, limite), limite) == Vigentes(s, limite)
  {
    if s != [] {
      VigentesIdempotente(s[1..], limite);
      var p := if s[0].fechaCreacion >= limite then [s[0]] else [];
      VigentesConcat(p, Vigentes(s[1..], limite), limite);
      if p != [] {
        assert Vigentes(p, limite) == p by {
          assert p[1..] == [];
        }
      }
    }
  }

  /** Without its first event a buffer is still increasing, and every later id exceeds the first. */
  lemma RestoCreciente(s: seq<Evento>, c: nat)
    requires s != [] && IdsCrecientes(s, c)
    ensures IdsCrecientes(s[1..], c)
    ensures forall e :: e in s[1..] ==> s[0].eventoId < e.eventoId
  {
    forall e | e in s[1..] ensures s[0].eventoId < e.eventoId {
      var k :| 0 <= k < |s[1..]| && s[1..][k] == e;
      assert s[k + 1] == e;
    }
  }

  /** An event with an id below all of an increasing buffer's can go in front of it. */
  lemma ConsCreciente(x: Evento, v: seq<Evento>, c: nat)
    requires IdsCrecientes(v, c) && x.eventoId <= c
    requires forall e :: e in v ==> x.eventoId < e.eventoId
    ensures IdsCrecientes([x] + v, c)
  {
    var r := [x] + v;
    forall i, j | 0 <= i < j < |r| ensures r[i].eventoId < r[j].eventoId {
      if i == 0 { assert r[j] in v; } else { assert r[i] == v[i - 1] && r[j] == v[j - 1]; }
    }
  }

  /** The purge keeps the surviving events in creation order. */
  lemma {:induction false} VigentesCreciente(s: seq<Evento>, limite: int, c: nat)
    requires IdsCrecientes(s, c)
    ensures IdsCrecientes(Vigentes(s, limite), c)
  {
    if s != [] {
      RestoCreciente(s, c);
      VigentesCreciente(s[1..], limite, c);
      if s[0].fechaCreacion >= limite {
        ConsCreciente(s[0], Vigentes(s[1..], limite), c);
      }
    }
  }

  lemma VigentesDeRol(s: seq<Evento>, limite: int, rol: int, max: nat, contador: nat)
    requires BufferDeRol(s, rol, max, contador)
    ensures BufferDeRol(Vigentes(s, limite), rol, max, contador)
  {
    VigentesCreciente(s, limite, contador);
    var r := Vigentes(s, limite);
    forall i | 0 <= i < |r| ensures r[i].destinatarioRol == rol {
      assert r[i] in s;
    }
  }

  lemma VigentesDeUsuario(s: seq<Evento>, limite: int, u: int, max: nat, contador: nat)
    requires BufferDeUsuario(s, u, max, contador)
    ensures BufferDeUsuario(Vigentes(s, limite), u, max, contador)
  {
    VigentesCreciente(s, limite, contador);
    var r := Vigentes(s, limite);
    forall i | 0 <= i < |r| ensures r[i].destinatarioId == Some(u) {
      assert r[i] in s;
    }
  }

  /** `limpiar_eventos_antiguos` with the cut-off `now - tiempo_vida`: filter every buffer, drop empty user buffers. */
  function Purgado(b: Buzones, limite: int): (r: Buzones)
    ensures r.porRol.Keys == b.porRol.Keys && r.contador == b.contador
    ensures forall u :: u in r.porUsuario <==> u in b.porUsuario && Vigentes(b.porUsuario[u], limite) != []
  {
    Buzones(PurgarMapa(b.porRol, limite), SinVacios(PurgarMapa(b.porUsuario, limite)), b.contador)
  }

  /** Every buffer of a map rebuilt with its recent events. */
  function PurgarMapa(m: map<int, seq<Evento>>, limite: int): map<int, seq<Evento>>
  {
    map q | q in m :: Vigentes(m[q], limite)
  }

  /** The map without its empty buffers. */
  function SinVacios(m: map<int, seq<Evento>>): map<int, seq<Evento>>
  {
    map u | u in m && m[u] != [] :: m[u]
  }

  /** After a purge every buffer holds only recent events and no user maps to an empty buffer. */
  lemma PurgadoReciente(b: Buzones, limite: int)
    ensures var r := Purgado(b, limite);
      && (forall q, e :: q in r.porRol && e in r.porRol[q] ==> e.fechaCreacion >= limite)
      && (forall u, e :: u in r.porUsuario && e in r.porUsuario[u] ==> e.fechaCreacion >= limite)
      && (forall u :: u in r.porUsuario ==> r.porUsuario[u] != [])
  {
  }

  /** A purge keeps every recent event where it was. */
  lemma PurgadoConserva(b: Buzones, limite: int, e: Evento)
    requires e.fechaCreacion >= limite
    ensures forall q :: q in b.porRol && e in b.porRol[q] ==> e in Purgado(b, limite).porRol[q]
    ensures forall u :: u in b.porUsuario && e in b.porUsuario[u] ==>
      u in Purgado(b, limite).porUsuario && e in Purgado(b, limite).porUsuario[u]
  {
    forall q | q in b.porRol && e in b.porRol[q] ensures e in Purgado(b, limite).porRol[q] {
      VigentesConserva(b.porRol[q], limite, e);
    }
    forall u | u in b.porUsuario && e in b.porUsuario[u]
      ensures u in Purgado(b, limite).porUsuario && e in Purgado(b, limite).porUsuario[u]
    {
      VigentesConserva(b.porUsuario[u], limite, e);
    }
  }

  lemma PurgadoPreservaValidez(b: Buzones, limite: int, max: nat)
    requires BuzonesValidos(b, max)
    ensures BuzonesValidos(Purgado(b, limite), max)
  {
    var r := Purgado(b, limite);
    forall q | q in r.porRol ensures BufferDeRol(r.porRol[q], q, max, r.contador) {
      VigentesDeRol(b.porRol[q], limite, q, max, b.contador);
    }
    forall u | u in r.porUsuario ensures BufferDeUsuario(r.porUsuario[u], u, max, r.contador) {
      VigentesDeUsuario(b.porUsuario[u], limite, u, max, b.contador);
    }
  }

  // ---------- the manager object ----------

  class GestorNotificaciones {
    const maxEventos: nat
    /** `tiempo_vida`, in seconds. */
    const tiempoVida: int
    var porRol: map<int, seq<Evento>>
    var porUsuario: map<int, seq<Evento>>
    var contador: nat

    function Estado(): Buzones
      reads this
    {
      Buzones(porRol, porUsuario, contador)
    }

    ghost predicate Valid()
      reads this
    {
      BuzonesValidos(Estado(), maxEventos)
    }

    /** `__init__(max_eventos, tiempo_vida_minutos)`. */
    constructor (maxEventos: nat, tiempoVidaMinutos: int)
      ensures this.maxEventos == maxEventos && tiempoVida == tiempoVidaMinutos * 60
      ensures Estado() == Inicial()
      ensures Valid()
    {
      this.maxEventos := maxEventos;
      tiempoVida := tiempoVidaMinutos * 60;
      porRol := map[1 := [], 2 := [], 3 := [], 4 := []];
      porUsuario := map[];
      contador := 0;
    }

    /** `crear_evento`, stamped with the instant `ahora`. */
    method CrearEvento(a: Aviso, ahora: int) returns (r: Result<Evento, Fallo>)
      requires Valid()
      modifies this
      ensures Estado() == Publicado(old(Estado()), a, maxEventos, ahora)
      ensures r == Creado(old(Estado()), a, ahora)
      ensures Valid()
    {
      PublicadoPreservaValidez(Estado(), a, maxEventos, ahora);
      r := Anotar(a, ahora);
    }

    /** The body of `crear_evento`: stamp the event, then append it to its buffers. */
    method Anotar(a: Aviso, ahora: int) returns (r: Result<Evento, Fallo>)
      modifies this
      ensures Estado() == Publicado(old(Estado()), a, maxEventos, ahora)
      ensures r == Creado(old(Estado()), a, ahora)
    {
      var e := Nuevo(Estado(), a, ahora);
      contador := contador + 1;
      if a.destinatarioRol !in porRol {
        return Err(RolDesconocido);
      }
      porRol := porRol[a.destinatarioRol := Anexar(porRol[a.destinatarioRol], e, maxEventos)];
      if Truthy(a.destinatarioId) {
        // a missing user buffer starts as an empty deque
        var u := a.destinatarioId.value;
        porUsuario := porUsuario[u := Anexar(Previo(porUsuario, u), e, maxEventos)];
      }
      return Ok(e);
    }

    /** Several `crear_evento` calls at the same instant, as one helper publisher makes them. */
    method Publicar(avisos: seq<Aviso>, ahora: int)
      requires Valid()
      modifies this
      ensures Estado() == PublicarTodos(old(Estado()), avisos, maxEventos, ahora)
      ensures Valid()
    {
      var i := 0;
      while i < |avisos|
        invariant i <= |avisos|
        invariant Valid()
        invariant PublicarTodos(old(Estado()), avisos, maxEventos, ahora)
               == PublicarTodos(Estado(), avisos[i..], maxEventos, ahora)
      {
        assert avisos[i..][1..] == avisos[i + 1..];
        var _ := CrearEvento(avisos[i], ahora);
        i := i + 1;
      }
    }

    /** `obtener_eventos_recientes` on the current buffers. */
    function ObtenerEventosRecientes(rolId: int, usuarioId: Option<int>, desde: Option<int>, tipo: Option<string>,
                                     limit: int, ahora: int): (r: Result<seq<Evento>, Fallo>)
      reads this
    {
      Consulta(Estado(), rolId, usuarioId, desde, tipo, limit, ahora)
    }

    /** The cut-off instant of a purge at `ahora`: events created before it are dropped. */
    function Corte(ahora: int): int
    {
      ahora - tiempoVida
    }

    /** `limpiar_eventos_antiguos` at instant `ahora`: rebuild each buffer, then delete empty user buffers. */
    method LimpiarEventosAntiguos(ahora: int)
      requires Valid()
      modifies this
      ensures Estado() == Purgado(old(Estado()), Corte(ahora))
      ensures Valid()
    {
      PurgadoPreservaValidez(Estado(), Corte(ahora), maxEventos);
      Purgar(Corte(ahora));
    }

    /** The body of `limpiar_eventos_antiguos` for the cut-off instant `limite`. */
    method Purgar(limite: int)
      modifies this
      ensures Estado() == Purgado(old(Estado()), limite)
    {
      PurgarRoles(limite);
      ghost var purgados := PurgarMapa(porUsuario, limite);
      var vacios := PurgarUsuarios(limite);
      BorrarUsuarios(vacios);
      assert porUsuario.Keys == SinVacios(purgados).Keys;
    }

    /** The loop over the role buffers, each rebuilt with its recent events only. */
    method PurgarRoles(limite: int)
      modifies this
      ensures porRol == PurgarMapa(old(porRol), limite)
      ensures porUsuario == old(porUsuario) && contador == old(contador)
    {
      var pendientes := porRol.Keys;
      while pendientes != {}
        invariant pendientes <= porRol.Keys && porRol.Keys == old(porRol).Keys
        invariant forall q :: q in porRol ==>
          porRol[q] == if q in pendientes then old(porRol)[q] else Vigentes(old(porRol)[q], limite)
        invariant porUsuario == old(porUsuario) && contador == old(contador)
        decreases pendientes
      {
        var q := Minimo(pendientes);
        porRol := porRol[q := Vigentes(porRol[q], limite)];
        pendientes := pendientes - {q};
      }
      assert pendientes == {};
      assert porRol.Keys == PurgarMapa(old(porRol), limite).Keys;
      assert forall q :: q in porRol ==> porRol[q] == PurgarMapa(old(porRol), limite)[q];
    }

    /** The loop over the user buffers; it returns the users left with an empty buffer. */
    method PurgarUsuarios(limite: int) returns (vacios: set<int>)
      modifies this
      ensures porUsuario == PurgarMapa(old(porUsuario), limite)
      ensures forall u :: u in vacios <==> u in porUsuario && porUsuario[u] == []
      ensures porRol == old(porRol) && contador == old(contador)
    {
      vacios := {};
      var pendientes := porUsuario.Keys;
      while pendientes != {}
        invariant pendientes <= porUsuario.Keys && porUsuario.Keys == old(porUsuario).Keys
        invariant forall u :: u in porUsuario ==>
          porUsuario[u] == if u in pendientes then old(porUsuario)[u] else Vigentes(old(porUsuario)[u], limite)
        invariant forall u :: u in vacios <==> u in porUsuario && u !in pendientes && porUsuario[u] == []
        invariant porRol == old(porRol) && contador == old(contador)
        decreases pendientes
      {
        var u := Minimo(pendientes);
        porUsuario := porUsuario[u := Vigentes(porUsuario[u], limite)];
        if porUsuario[u] == [] {
          vacios := vacios + {u};
        }
        pendientes := pendientes - {u};
      }
      assert pendientes == {};
      assert porUsuario.Keys == PurgarMapa(old(porUsuario), limite).Keys;
      assert forall u :: u in porUsuario ==> porUsuario[u] == PurgarMapa(old(porUsuario), limite)[u];
    }

    /** `del eventos_por_usuario[u]` for every user whose buffer was left empty. */
    method BorrarUsuarios(vacios: set<int>)
      requires forall u :: u in vacios <==> u in porUsuario && porUsuario[u] == []
      modifies this
      ensures porUsuario == SinVacios(old(porUsuario))
      ensures porRol == old(porRol) && contador == old(contador)
    {
      var pendientes := vacios;
      while pendientes != {}
        invariant pendientes <= vacios
        invariant forall u :: u in porUsuario <==> u in old(porUsuario) && (u !in vacios || u in pendientes)
        invariant forall u :: u in porUsuario ==> porUsuario[u] == old(porUsuario)[u]
        invariant porRol == old(porRol) && contador == old(contador)
        decreases pendientes
      {
        var u := Minimo(pendientes);
        porUsuario := map v | v in porUsuario && v != u :: porUsuario[v];
        pendientes := pendientes - {u};
      }
      assert pendientes == {};
      assert forall u :: u in porUsuario <==> u in old(porUsuario) && u !in vacios;
      assert forall u :: u in porUsuario <==> u in SinVacios(old(porUsuario));
      assert porUsuario.Keys == SinVacios(old(porUsuario)).Keys;
      assert forall u :: u in porUsuario ==> porUsuario[u] == SinVacios(old(porUsuario))[u];
    }
  }
}
