/**
 * The polling endpoints over the notification manager: the caller's recent
 * events, the unseen-events counter, the kitchen, courier and client feeds,
 * the courier's "I have arrived" announcement and the manual purge.
 * Query parameters outside their declared bounds are rejected (422) before
 * the handler runs, hence before any role check.
 */
module RutasNotificaciones {
  import opened Base
  import opened Enums
  import opened Errores
  import opened Modelos
  import opened Notificaciones
  import opened Publicadores
  import opened Tienda
  import RutasDelivery

  const SegundosPorMinuto := 60

  /** A query parameter: the given value, or its declared default. */
  function Defecto(o: Option<int>, d: int): (v: int)
    ensures o.None? ==> v == d
    ensures o.Some? ==> v == o.value
  {
    if o.Some? then o.value else d
  }

  /** `Query(default=d, ge=lo, le=hi)` accepts the parameter. */
  predicate EnRango(o: Option<int>, d: int, lo: int, hi: int)
  {
    lo <= Defecto(o, d) <= hi
  }

  /** `datetime.now() - timedelta(minutes=m)`. */
  function Hace(minutos: int, ahora: int): int
  {
    ahora - minutos * SegundosPorMinuto
  }

  // ---------- GET /mis-notificaciones ----------

  /**
   * Any authenticated caller: the events of their own buffer and their role's
   * buffer from the last `desde_minutos` (1..60, default 5), optionally of one
   * type, newest first, at most `limit` (1..100, default 50).
   */
  function MisNotificaciones(b: Buzones, ses: Sesion, desdeMinutos: Option<int>, tipo: Option<string>,
                             limit: Option<int>, ahora: int): (r: Result<seq<Evento>, Fallo>)
    ensures r == Err(ParametroInvalido) <==> !EnRango(desdeMinutos, 5, 1, 60) || !EnRango(limit, 50, 1, 100)
    ensures EnRango(desdeMinutos, 5, 1, 60) && EnRango(limit, 50, 1, 100) ==>
      (r.Err? <==> ses.rolId !in b.porRol)
    ensures r.Ok? ==> forall e :: e in r.value ==>
      && e.fechaCreacion >= Hace(Defecto(desdeMinutos, 5), ahora)
      && (tipo.None? || e.tipo == tipo.value)
      && (e.destinatarioId.None? || e.destinatarioId == Some(ses.usuarioId))
    ensures r.Ok? ==> |r.value| <= Defecto(limit, 50) <= 100
    ensures r.Ok? ==> MasRecientesPrimero(r.value)
    ensures r.Ok? ==> r == Consulta(b, ses.rolId, Some(ses.usuarioId), Some(Hace(Defecto(desdeMinutos, 5), ahora)),
                                    tipo, Defecto(limit, 50), ahora)
    ensures r.Ok? ==>
      var f := Filtrar(Candidatos(b, ses.rolId, Some(ses.usuarioId)), Hace(Defecto(desdeMinutos, 5), ahora), tipo, Some(ses.usuarioId));
      multiset(r.value) <= multiset(f) && |r.value| == Min(Defecto(limit, 50), |f|)
  {
    if !EnRango(desdeMinutos, 5, 1, 60) || !EnRango(limit, 50, 1, 100) then Err(ParametroInvalido)
    else
      var q := Consulta(b, ses.rolId, Some(ses.usuarioId), Some(Hace(Defecto(desdeMinutos, 5), ahora)),
                        tipo, Defecto(limit, 50), ahora);
      assert q.Err? ==> q.error == RolDesconocido;
      q
  }

  // ---------- GET /contador ----------

  /** The types that occur in `s`. */
  function Tipos(s: seq<Evento>): set<string>
  {
    set i | 0 <= i < |s| :: s[i].tipo
  }

  /** The types of `s` are those of all but its last event, and the last one's. */
  lemma TiposUltimo(s: seq<Evento>)
    requires s != []
    ensures Tipos(s) == Tipos(s[..|s| - 1]) + {s[|s| - 1].tipo}
  {
    var p := s[..|s| - 1];
    assert forall i :: 0 <= i < |p| ==> p[i] == s[i];
  }

  /** How many events of `s` have type `t`. */
  function Cuenta(s: seq<Evento>, t: string): (n: nat)
    ensures n <= |s|
    ensures n > 0 <==> t in Tipos(s)
  {
    if s == [] then 0
    else
      TiposUltimo(s);
      Cuenta(s[..|s| - 1], t) + if s[|s| - 1].tipo == t then 1 else 0
  }

  /** `eventos_por_tipo` as the loop builds it, one event at a time. */
  function PorTipo(s: seq<Evento>): map<string, nat>
  {
    if s == [] then map[]
    else
      var m := PorTipo(s[..|s| - 1]);
      var t := s[|s| - 1].tipo;
      m[t := (if t in m then m[t] else 0) + 1]
  }

  /** One entry per type present, each the number of events of that type. */
  lemma {:induction false} PorTipoCuenta(s: seq<Evento>)
    ensures PorTipo(s).Keys == Tipos(s)
    ensures forall t :: t in PorTipo(s) ==> PorTipo(s)[t] == Cuenta(s, t)
    decreases |s|
  {
    if s != [] {
      var p := s[..|s| - 1];
      PorTipoCuenta(p);
      TiposUltimo(s);
      var x := s[|s| - 1].tipo;
      forall t | t in PorTipo(s) ensures PorTipo(s)[t] == Cuenta(s, t) {
        if t == x && t !in PorTipo(p) {
          assert Cuenta(p, t) == 0;
        }
      }
    }
  }

  /** The sum of a map's values. */
  ghost function Total(m: map<string, nat>): nat
    decreases |m|
  {
    if m == map[] then 0
    else
      var k :| k in m;
      m[k] + Total(m - {k})
  }

  /** Any key can be taken out first. */
  lemma {:induction false} TotalQuitar(m: map<string, nat>, k: string)
    requires k in m
    ensures Total(m) == m[k] + Total(m - {k})
    decreases |m|
  {
    var j :| j in m && Total(m) == m[j] + Total(m - {j});
    if j != k {
      assert |m - {j}| < |m| by { assert (m - {j}).Keys == m.Keys - {j}; }
      assert |m - {k}| < |m| by { assert (m - {k}).Keys == m.Keys - {k}; }
      TotalQuitar(m - {j}, k);
      TotalQuitar(m - {k}, j);
      assert m - {j} - {k} == m - {k} - {j};
    }
  }

  /** One more event of type `t` adds one to the sum. */
  lemma TotalIncremento(m: map<string, nat>, t: string)
    ensures Total(m[t := (if t in m then m[t] else 0) + 1]) == Total(m) + 1
  {
    var n := m[t := (if t in m then m[t] else 0) + 1];
    TotalQuitar(n, t);
    if t in m {
      TotalQuitar(m, t);
      assert n - {t} == m - {t};
    } else {
      assert n - {t} == m;
    }
  }

  /** The per-type counts add up to the total. */
  lemma {:induction false} TotalPorTipo(s: seq<Evento>)
    ensures Total(PorTipo(s)) == |s|
    decreases |s|
  {
    if s != [] {
      TotalPorTipo(s[..|s| - 1]);
      TotalIncremento(PorTipo(s[..|s| - 1]), s[|s| - 1].tipo);
    }
  }

  /** The counting loop of `contador_notificaciones_nuevas`. */
  method ContarPorTipo(eventos: seq<Evento>) returns (m: map<string, nat>)
    ensures m.Keys == Tipos(eventos)
    ensures forall t :: t in m ==> m[t] == Cuenta(eventos, t)
    ensures m == PorTipo(eventos)
  {
    PorTipoCuenta(eventos);
    m := map[];
    var i := 0;
    while i < |eventos|
      invariant i <= |eventos|
      invariant m == PorTipo(eventos[..i])
    {
      var t := eventos[i].tipo;
      ghost var p := eventos[..i + 1];
      assert p[..|p| - 1] == eventos[..i] && p[|p| - 1].tipo == t;
      if t !in m {
        m := m[t := 0];
      }
      m := m[t := m[t] + 1];
      i := i + 1;
    }
    assert eventos[..i] == eventos;
  }

  datatype Contador = Contador(total: nat, desde: int, eventosPorTipo: map<string, nat>)

  /**
   * The counter: the caller's visible events since `desde` (by default five
   * minutes ago), at most the default 50, and how many of each type.
   */
  function Contado(b: Buzones, ses: Sesion, desde: Option<int>, ahora: int): (r: Result<Contador, Fallo>)
    ensures r.Err? <==> ses.rolId !in b.porRol
    ensures r.Ok? ==> r.value.total <= LimitePorDefecto
    ensures r.Ok? ==> r.value.desde == (if desde.None? then ahora - 5 * SegundosPorMinuto else desde.value)
    ensures r.Ok? ==> r.value.total == |Consulta(b, ses.rolId, Some(ses.usuarioId), desde, None, LimitePorDefecto, ahora).value|
    ensures r.Ok? ==> r.value.eventosPorTipo.Keys
                      == Tipos(Consulta(b, ses.rolId, Some(ses.usuarioId), desde, None, LimitePorDefecto, ahora).value)
    ensures r.Ok? ==> forall t :: t in r.value.eventosPorTipo ==>
      r.value.eventosPorTipo[t] == Cuenta(Consulta(b, ses.rolId, Some(ses.usuarioId), desde, None, LimitePorDefecto, ahora).value, t)
  {
    var q := Consulta(b, ses.rolId, Some(ses.usuarioId), desde, None, LimitePorDefecto, ahora);
    if q.Err? then Err(q.error)
    else
      PorTipoCuenta(q.value);
      Ok(Contador(|q.value|, Desde(desde, ahora), PorTipo(q.value)))
  }

  /** The per-type counts of the answer add up to its total. */
  lemma ContadoSuma(b: Buzones, ses: Sesion, desde: Option<int>, ahora: int)
    requires Contado(b, ses, desde, ahora).Ok?
    ensures Total(Contado(b, ses, desde, ahora).value.eventosPorTipo) == Contado(b, ses, desde, ahora).value.total
  {
    TotalPorTipo(Consulta(b, ses.rolId, Some(ses.usuarioId), desde, None, LimitePorDefecto, ahora).value);
  }

  /** `contador_notificaciones_nuevas` on the manager's current buffers. */
  method ContadorNotificacionesNuevas(g: GestorNotificaciones, ses: Sesion, desde: Option<int>, ahora: int)
    returns (r: Result<Contador, Fallo>)
    ensures r == Contado(g.Estado(), ses, desde, ahora)
  {
    var cuando := if desde.None? then ahora - 5 * SegundosPorMinuto else desde.value;
    var q := g.ObtenerEventosRecientes(ses.rolId, Some(ses.usuarioId), Some(cuando), None, LimitePorDefecto, ahora);
    if q.Err? {
      return Err(q.error);
    }
    var porTipo := ContarPorTipo(q.value);
    return Ok(Contador(|q.value|, cuando, porTipo));
  }

  // ---------- the role feeds ----------

  /**
   * GET /cocina/nuevos-pedidos: kitchen and administrators; the NUEVO_PEDIDO
   * broadcasts of the kitchen buffer from the last `desde_minutos` (1..60,
   * default 10), at most 50. No caller id is passed, so no addressed event shows.
   */
  function NuevosPedidosCocina(b: Buzones, ses: Sesion, desdeMinutos: Option<int>, ahora: int): (r: Result<seq<Evento>, Fallo>)
    ensures !EnRango(desdeMinutos, 10, 1, 60) <==> r == Err(ParametroInvalido)
    ensures EnRango(desdeMinutos, 10, 1, 60) && ses.rolId != RolAdmin && ses.rolId != RolCocina ==> r == Err(Prohibido)
    ensures EnRango(desdeMinutos, 10, 1, 60) && (ses.rolId == RolAdmin || ses.rolId == RolCocina) ==>
      (r.Err? <==> RolCocina !in b.porRol)
    ensures r.Ok? ==> forall e :: e in r.value ==>
      e.tipo == NuevoPedidoTipo && e.destinatarioId.None? && e.fechaCreacion >= Hace(Defecto(desdeMinutos, 10), ahora)
    ensures r.Ok? ==> |r.value| <= LimitePorDefecto && MasRecientesPrimero(r.value)
    ensures r.Ok? ==> multiset(r.value) <= multiset(b.porRol[RolCocina])
    ensures r.Ok? ==> r == Consulta(b, RolCocina, None, Some(Hace(Defecto(desdeMinutos, 10), ahora)), Some(NuevoPedidoTipo),
                                    LimitePorDefecto, ahora)
    ensures r.Ok? ==>
      var f := Filtrar(Candidatos(b, RolCocina, None), Hace(Defecto(desdeMinutos, 10), ahora), Some(NuevoPedidoTipo), None);
      multiset(r.value) <= multiset(f) && |r.value| == Min(LimitePorDefecto, |f|)
  {
    if !EnRango(desdeMinutos, 10, 1, 60) then Err(ParametroInvalido)
    else if ses.rolId != RolAdmin && ses.rolId != RolCocina then Err(Prohibido)
    else
      var q := Consulta(b, RolCocina, None, Some(Hace(Defecto(desdeMinutos, 10), ahora)), Some(NuevoPedidoTipo),
                        LimitePorDefecto, ahora);
      assert q.Err? ==> q.error == RolDesconocido;
      q
  }

  /**
   * GET /delivery/mis-asignaciones: administrators and couriers; the
   * PEDIDO_ASIGNADO events of the caller's buffer and the courier buffer from
   * the last `desde_minutos` (1..120, default 30), at most 50.
   */
  function MisAsignaciones(b: Buzones, ses: Sesion, desdeMinutos: Option<int>, ahora: int): (r: Result<seq<Evento>, Fallo>)
    ensures !EnRango(desdeMinutos, 30, 1, 120) <==> r == Err(ParametroInvalido)
    ensures EnRango(desdeMinutos, 30, 1, 120) && !RutasDelivery.EsReparto(ses) ==> r == Err(Prohibido)
    ensures EnRango(desdeMinutos, 30, 1, 120) && RutasDelivery.EsReparto(ses) ==> (r.Err? <==> RolDelivery !in b.porRol)
    ensures r.Ok? ==> forall e :: e in r.value ==>
      && e.tipo == PedidoAsignadoTipo
      && (e.destinatarioId.None? || e.destinatarioId == Some(ses.usuarioId))
      && e.fechaCreacion >= Hace(Defecto(desdeMinutos, 30), ahora)
    ensures r.Ok? ==> |r.value| <= LimitePorDefecto && MasRecientesPrimero(r.value)
    ensures r.Ok? ==> r == Consulta(b, RolDelivery, Some(ses.usuarioId), Some(Hace(Defecto(desdeMinutos, 30), ahora)),
                                    Some(PedidoAsignadoTipo), LimitePorDefecto, ahora)
    ensures r.Ok? ==>
      var f := Filtrar(Candidatos(b, RolDelivery, Some(ses.usuarioId)), Hace(Defecto(desdeMinutos, 30), ahora),
                       Some(PedidoAsignadoTipo), Some(ses.usuarioId));
      multiset(r.value) <= multiset(f) && |r.value| == Min(LimitePorDefecto, |f|)
  {
    if !EnRango(desdeMinutos, 30, 1, 120) then Err(ParametroInvalido)
    else if !RutasDelivery.EsReparto(ses) then Err(Prohibido)
    else
      var q := Consulta(b, RolDelivery, Some(ses.usuarioId), Some(Hace(Defecto(desdeMinutos, 30), ahora)),
                        Some(PedidoAsignadoTipo), LimitePorDefecto, ahora);
      assert q.Err? ==> q.error == RolDesconocido;
      q
  }

  /**
   * GET /cliente/mis-pedidos: administrators and clients; every event of the
   * caller's buffer and the client buffer from the last `desde_minutos`
   * (1..1440, default 60), at most 50.
   */
  function NotificacionesCliente(b: Buzones, ses: Sesion, desdeMinutos: Option<int>, ahora: int): (r: Result<seq<Evento>, Fallo>)
    ensures !EnRango(desdeMinutos, 60, 1, 1440) <==> r == Err(ParametroInvalido)
    ensures EnRango(desdeMinutos, 60, 1, 1440) && ses.rolId != RolAdmin && ses.rolId != RolCliente ==> r == Err(Prohibido)
    ensures EnRango(desdeMinutos, 60, 1, 1440) && (ses.rolId == RolAdmin || ses.rolId == RolCliente) ==>
      (r.Err? <==> RolCliente !in b.porRol)
    ensures r.Ok? ==> forall e :: e in r.value ==>
      && (e.destinatarioId.None? || e.destinatarioId == Some(ses.usuarioId))
      && e.fechaCreacion >= Hace(Defecto(desdeMinutos, 60), ahora)
    ensures r.Ok? ==> |r.value| <= LimitePorDefecto && MasRecientesPrimero(r.value)
    ensures r.Ok? ==> r == Consulta(b, RolCliente, Some(ses.usuarioId), Some(Hace(Defecto(desdeMinutos, 60), ahora)),
                                    None, LimitePorDefecto, ahora)
    ensures r.Ok? ==>
      var f := Filtrar(Candidatos(b, RolCliente, Some(ses.usuarioId)), Hace(Defecto(desdeMinutos, 60), ahora),
                       None, Some(ses.usuarioId));
      multiset(r.value) <= multiset(f) && |r.value| == Min(LimitePorDefecto, |f|)
  {
    if !EnRango(desdeMinutos, 60, 1, 1440) then Err(ParametroInvalido)
    else if ses.rolId != RolAdmin && ses.rolId != RolCliente then Err(Prohibido)
    else
      var q := Consulta(b, RolCliente, Some(ses.usuarioId), Some(Hace(Defecto(desdeMinutos, 60), ahora)),
                        None, LimitePorDefecto, ahora);
      assert q.Err? ==> q.error == RolDesconocido;
      q
  }

  /** When the client's visible events fit in the limit, the feed returns all of them. */
  lemma ClienteCompleto(b: Buzones, ses: Sesion, ahora: int)
    requires RolCliente in b.porRol && ses.rolId == RolCliente
    requires |Filtrar(Candidatos(b, RolCliente, Some(ses.usuarioId)), Hace(60, ahora), None, Some(ses.usuarioId))|
             <= LimitePorDefecto
    ensures NotificacionesCliente(b, ses, None, ahora).Ok?
    ensures multiset(NotificacionesCliente(b, ses, None, ahora).value)
         == multiset(Filtrar(Candidatos(b, RolCliente, Some(ses.usuarioId)), Hace(60, ahora), None, Some(ses.usuarioId)))
  {
    ConsultaCompleta(b, RolCliente, Some(ses.usuarioId), Some(Hace(60, ahora)), None, LimitePorDefecto, ahora);
  }

  // ---------- POST /delivery/notificar-llegada/{pedido_id} ----------

  /**
   * Administrators and couriers, on an order assigned to the caller, in any
   * state: one DELIVERY_CERCA event for the order's client.
   */
  function Llegada(t: Tablas, ses: Sesion, pedidoId: int): (r: Result<seq<Aviso>, Fallo>)
    ensures !RutasDelivery.EsReparto(ses) ==> r == Err(Prohibido)
    ensures RutasDelivery.EsReparto(ses) && pedidoId !in t.pedidos ==> r == Err(PedidoNoEncontrado)
    ensures RutasDelivery.EsReparto(ses) && pedidoId in t.pedidos && !RutasDelivery.AsignadoA(t.pedidos[pedidoId], ses)
            ==> r == Err(NoAsignado)
    ensures r.Ok? <==> RutasDelivery.EsReparto(ses) && pedidoId in t.pedidos && RutasDelivery.AsignadoA(t.pedidos[pedidoId], ses)
    ensures r.Ok? ==> && |r.value| == 1 && r.value[0].tipo == CercaTipo
                      && r.value[0].destinatarioRol == RolCliente
                      && r.value[0].destinatarioId == Some(t.pedidos[pedidoId].usuarioId)
  {
    if !RutasDelivery.EsReparto(ses) then Err(Prohibido)
    else if pedidoId !in t.pedidos then Err(PedidoNoEncontrado)
    else
      var p := t.pedidos[pedidoId];
      if !RutasDelivery.AsignadoA(p, ses) then Err(NoAsignado)
      else Ok(DeliveryCerca(pedidoId, p.tokenRecoger, p.usuarioId, ses.nombreCompleto))
  }

  /** The courier who just took an order can announce their arrival. */
  lemma LlegadaTrasTomar(t: Tablas, ses: Sesion, pedidoId: int, ahora: int)
    requires RutasDelivery.PedidoTomado(t, ses, pedidoId, ahora).Ok?
    ensures Llegada(RutasDelivery.PedidoTomado(t, ses, pedidoId, ahora).value.tablas, ses, pedidoId).Ok?
  {
  }

  /**
   * The announcement reaches the client: once published, it passes the
   * client feed's filter for that client (with a non-zero id and room in the buffer).
   */
  lemma LlegadaVisibleAlCliente(t: Tablas, b: Buzones, ses: Sesion, pedidoId: int, max: nat, ahora: int, desde: int)
    requires Llegada(t, ses, pedidoId).Ok?
    requires RolCliente in b.porRol && max > 0 && desde <= ahora && t.pedidos[pedidoId].usuarioId != 0
    ensures var a := Llegada(t, ses, pedidoId).value[0];
      var u := Some(t.pedidos[pedidoId].usuarioId);
      Nuevo(b, a, ahora) in Filtrar(Candidatos(Publicado(b, a, max, ahora), RolCliente, u), desde, None, u)
  {
    var a := Llegada(t, ses, pedidoId).value[0];
    PublicadoVisible(b, a, max, ahora, Some(t.pedidos[pedidoId].usuarioId), desde, None);
  }

  /** `notificar_llegada_delivery`: answers with the client's id; the tables are only read. */
  method NotificarLlegadaDelivery(db: BaseDatos, g: GestorNotificaciones, ses: Sesion, pedidoId: int, ahora: int)
    returns (r: Result<int, Fallo>)
    requires g.Valid()
    modifies g
    ensures var s := Llegada(db.Estado(), ses, pedidoId);
      && (s.Err? ==> r == Err(s.error) && g.Estado() == old(g.Estado()))
      && (s.Ok? ==> r == Ok(db.pedidos[pedidoId].usuarioId)
                    && g.Estado() == PublicarTodos(old(g.Estado()), s.value, g.maxEventos, ahora))
    ensures g.Valid()
  {
    if ses.rolId != RolAdmin && ses.rolId != RolDelivery {
      return Err(Prohibido);
    }
    if pedidoId !in db.pedidos {
      return Err(PedidoNoEncontrado);
    }
    var pedido := db.pedidos[pedidoId];
    if pedido.deliveryAsignadoId != Some(ses.usuarioId) {
      return Err(NoAsignado);
    }
    g.Publicar(DeliveryCerca(pedidoId, pedido.tokenRecoger, pedido.usuarioId, ses.nombreCompleto), ahora);
    return Ok(pedido.usuarioId);
  }

  // ---------- DELETE /limpiar-antiguas ----------

  /** Administrators only: the buffers keep the events younger than the manager's lifetime. */
  function Limpieza(b: Buzones, ses: Sesion, tiempoVida: int, ahora: int): (r: Result<Buzones, Fallo>)
    ensures ses.rolId != RolAdmin <==> r == Err(Prohibido)
    ensures r.Ok? ==> r.value == Purgado(b, ahora - tiempoVida)
    ensures r.Ok? ==> r.value.contador == b.contador && r.value.porRol.Keys == b.porRol.Keys
  {
    if ses.rolId != RolAdmin then Err(Prohibido) else Ok(Purgado(b, ahora - tiempoVida))
  }

  /** `limpiar_notificaciones_antiguas`. */
  method LimpiarNotificacionesAntiguas(g: GestorNotificaciones, ses: Sesion, ahora: int) returns (r: Result<(), Fallo>)
    requires g.Valid()
    modifies g
    ensures var s := Limpieza(old(g.Estado()), ses, g.tiempoVida, ahora);
      && (s.Err? ==> r == Err(Prohibido) && g.Estado() == old(g.Estado()))
      && (s.Ok? ==> r == Ok(()) && g.Estado() == s.value)
    ensures g.Valid()
  {
    if ses.rolId != RolAdmin {
      return Err(Prohibido);
    }
    assert g.Corte(ahora) == ahora - g.tiempoVida;
    g.LimpiarEventosAntiguos(ahora);
    return Ok(());
  }
}
