/**
 * The kitchen endpoints: the queue of orders to prepare, the state change
 * the kitchen may make (EN_COCINA or LISTO_PARA_ENTREGA, with its events),
 * and the day's counters.
 */
module RutasCocina {
  import opened Base
  import opened Enums
  import opened Errores
  import opened Orden
  import opened Modelos
  import opened Stock
  import opened Notificaciones
  import opened Publicadores
  import opened Tienda

  /** `rol_id in [1, 2]`: administrators and the kitchen. */
  predicate EsCocina(ses: Sesion)
  {
    ses.rolId == RolAdmin || ses.rolId == RolCocina
  }

  /** The states the kitchen still has to work on. */
  predicate EnProceso(e: Estado)
  {
    e == Confirmado || e == EnCocina
  }

  /** The states the kitchen is done with. */
  predicate Procesado(e: Estado)
  {
    e == ListoParaEntrega || e == EnReparto || e == Entregado
  }

  // ---------- obtener_pedidos_pendientes ----------

  /** `ORDER BY fecha_pedido ASC`, as a key on order ids. */
  function PorFechaPedido(pedidos: map<int, Pedido>): int -> Clave
  {
    (i: int) => if i in pedidos then Clave.Valor(pedidos[i].fechaPedido) else Clave.Nulo
  }

  /**
   * The ids `obtener_pedidos_pendientes` lists: every CONFIRMADO or EN_COCINA
   * order, oldest first, each once.
   */
  function Pendientes(t: Tablas, ses: Sesion): (r: Result<seq<int>, Fallo>)
    ensures !EsCocina(ses) <==> r == Err(Prohibido)
    ensures r.Ok? ==> forall i :: i in r.value <==> i in t.pedidos && EnProceso(t.pedidos[i].estado)
    ensures r.Ok? ==> SinRepetidos(r.value)
    ensures r.Ok? ==> forall i :: 0 <= i < |r.value| ==> r.value[i] in t.pedidos
    ensures r.Ok? ==> forall i, j :: 0 <= i < j < |r.value| ==>
                        t.pedidos[r.value[i]].fechaPedido <= t.pedidos[r.value[j]].fechaPedido
  {
    if !EsCocina(ses) then Err(Prohibido)
    else
      var s := Seleccion(t.pedidos, (p: Pedido) => EnProceso(p.estado));
      var k := PorFechaPedido(t.pedidos);
      var r := OrdenarEstable(s, k);
      assert SinRepetidos(s);
      PendientesOrdenados(t.pedidos, s, k);
      Ok(r)
  }

  /** Sorting the selected ids keeps them, once each, and puts them in order of creation. */
  lemma PendientesOrdenados(pedidos: map<int, Pedido>, s: seq<int>, k: int -> Clave)
    requires k == PorFechaPedido(pedidos)
    requires SinRepetidos(s)
    requires forall i :: i in s ==> i in pedidos
    ensures var r := OrdenarEstable(s, k);
      && (forall i :: i in r <==> i in s)
      && SinRepetidos(r)
      && (forall i :: 0 <= i < |r| ==> r[i] in pedidos)
      && forall i, j :: 0 <= i < j < |r| ==> pedidos[r[i]].fechaPedido <= pedidos[r[j]].fechaPedido
  {
    var r := OrdenarEstable(s, k);
    OrdenarSeleccion(s, k);
    forall i, j | 0 <= i < j < |r| ensures pedidos[r[i]].fechaPedido <= pedidos[r[j]].fechaPedido {
      assert Leq(k(r[i]), k(r[j]));
      assert r[i] in s && r[j] in s;
    }
  }

  // ---------- cambiar_estado_pedido ----------

  /** The only targets the kitchen may set. */
  predicate PermitidoEnCocina(e: Estado)
  {
    e == EnCocina || e == ListoParaEntrega
  }

  /** The order after the kitchen's change: the state, and the ready time when it becomes LISTO_PARA_ENTREGA. */
  function Cocinado(t: Tablas, pedidoId: int, nuevo: Estado, ahora: int): (n: Tablas)
    requires pedidoId in t.pedidos
    ensures SoloPedido(t, n, pedidoId)
  {
    t.(pedidos := t.pedidos[pedidoId := Estampado(t.pedidos[pedidoId], nuevo, ahora)])
  }

  /** The courier's ready event, when the order has a truthy courier id that names a stored user. */
  function AvisoListo(t: Tablas, pedidoId: int, p: Pedido): seq<Aviso>
  {
    if Truthy(p.deliveryAsignadoId) && p.deliveryAsignadoId.value in t.usuarios then
      PedidoListo(pedidoId, p.tokenRecoger, p.deliveryAsignadoId)
    else []
  }

  /**
   * The events of the intended `cambiar_estado_pedido`: the client, when
   * stored, hears of the new state by its member name; on LISTO_PARA_ENTREGA
   * the stored courier hears the order is ready.
   */
  function AvisosCocina(t: Tablas, pedidoId: int, nuevo: Estado, p: Pedido): seq<Aviso>
  {
    (if p.usuarioId in t.usuarios then CambioEstado(pedidoId, p.tokenRecoger, Nombre(nuevo), p.usuarioId) else [])
    + (if nuevo == ListoParaEntrega then AvisoListo(t, pedidoId, p) else [])
  }

  /**
   * What `cambiar_estado_pedido` is meant to do: administrators and the
   * kitchen only; the order must exist; the target must be EN_COCINA or
   * LISTO_PARA_ENTREGA, whatever the current state; then the events.
   */
  function CambiadoCocina(t: Tablas, ses: Sesion, pedidoId: int, nuevo: Estado, ahora: int): (r: Result<Efecto, Fallo>)
    ensures !EsCocina(ses) ==> r == Err(Prohibido)
    ensures EsCocina(ses) && pedidoId !in t.pedidos ==> r == Err(PedidoNoEncontrado)
    ensures EsCocina(ses) && pedidoId in t.pedidos && !PermitidoEnCocina(nuevo) ==> r == Err(EstadoNoPermitido)
    ensures r.Ok? <==> EsCocina(ses) && pedidoId in t.pedidos && PermitidoEnCocina(nuevo)
    ensures r.Ok? ==> SoloPedido(t, r.value.tablas, pedidoId)
    ensures r.Ok? ==> var p := t.pedidos[pedidoId];
                      var q := r.value.tablas.pedidos[pedidoId];
                      && q.estado == nuevo && MismosDatos(p, q) && q.deliveryAsignadoId == p.deliveryAsignadoId
                      && (nuevo == ListoParaEntrega ==> q == p.(estado := ListoParaEntrega, fechaListoCocina := Some(ahora)))
                      && (nuevo == EnCocina ==> q == p.(estado := EnCocina))
    ensures r.Ok? ==> var p := t.pedidos[pedidoId];
                      && (p.usuarioId in t.usuarios <==> exists a :: a in r.value.avisos && a.tipo == CambioEstadoTipo)
                      && (p.usuarioId in t.usuarios ==> r.value.avisos[0] == CambioEstado(pedidoId, p.tokenRecoger, Nombre(nuevo), p.usuarioId)[0])
                      && |r.value.avisos| <= 2
  {
    if !EsCocina(ses) then Err(Prohibido)
    else if pedidoId !in t.pedidos then Err(PedidoNoEncontrado)
    else if !PermitidoEnCocina(nuevo) then Err(EstadoNoPermitido)
    else
      var n := Cocinado(t, pedidoId, nuevo, ahora);
      AvisosCocinaTipos(t, pedidoId, nuevo, n.pedidos[pedidoId]);
      Ok(Efecto(n, AvisosCocina(t, pedidoId, nuevo, n.pedidos[pedidoId])))
  }

  lemma AvisosCocinaTipos(t: Tablas, pedidoId: int, nuevo: Estado, p: Pedido)
    ensures var s := AvisosCocina(t, pedidoId, nuevo, p);
      && |s| <= 2
      && (p.usuarioId in t.usuarios <==> exists a :: a in s && a.tipo == CambioEstadoTipo)
      && (p.usuarioId in t.usuarios ==> s[0] == CambioEstado(pedidoId, p.tokenRecoger, Nombre(nuevo), p.usuarioId)[0])
  {
    var s := AvisosCocina(t, pedidoId, nuevo, p);
    var c := if p.usuarioId in t.usuarios then CambioEstado(pedidoId, p.tokenRecoger, Nombre(nuevo), p.usuarioId) else [];
    var l := if nuevo == ListoParaEntrega then AvisoListo(t, pedidoId, p) else [];
    assert s == c + l;
    assert forall a :: a in l ==> a.tipo == PedidoListoTipo;
    if p.usuarioId in t.usuarios {
      assert s[0] in s;
    }
  }

  /** What the caller of `cambiar_estado_pedido` gets: what was committed and published, and the error answered after the commit, if any. */
  datatype Salida = Salida(efecto: Efecto, fallo: Option<Fallo>)

  /**
   * `cambiar_estado_pedido` as written. The request model stores the state's
   * plain string value, so reading `.value` on it for the client's event
   * raises once the commit is done: a stored client gets an internal error
   * and no event at all; without a stored client only the courier's event
   * goes out.
   */
  function CambiadoCocinaTalCual(t: Tablas, ses: Sesion, pedidoId: int, nuevo: Estado, ahora: int): (r: Result<Salida, Fallo>)
    ensures r.Err? <==> CambiadoCocina(t, ses, pedidoId, nuevo, ahora).Err?
    ensures r.Err? ==> r.error == CambiadoCocina(t, ses, pedidoId, nuevo, ahora).error
    ensures r.Ok? ==> r.value.efecto.tablas == CambiadoCocina(t, ses, pedidoId, nuevo, ahora).value.tablas
    ensures r.Ok? ==> (r.value.fallo == Some(ErrorInterno) <==> t.pedidos[pedidoId].usuarioId in t.usuarios)
    ensures r.Ok? ==> forall a :: a in r.value.efecto.avisos ==> a.tipo == PedidoListoTipo
  {
    if !EsCocina(ses) then Err(Prohibido)
    else if pedidoId !in t.pedidos then Err(PedidoNoEncontrado)
    else if !PermitidoEnCocina(nuevo) then Err(EstadoNoPermitido)
    else
      var n := Cocinado(t, pedidoId, nuevo, ahora);
      var p := n.pedidos[pedidoId];
      if p.usuarioId in t.usuarios then Ok(Salida(Efecto(n, []), Some(ErrorInterno)))
      else Ok(Salida(Efecto(n, if nuevo == ListoParaEntrega then AvisoListo(t, pedidoId, p) else []), None))
  }

  /**
   * The discrepancy: for an order whose client is stored, the change is
   * committed but the caller gets an internal error and the client's event is
   * lost, where the intended endpoint answers normally and tells the client.
   */
  lemma CocinaTalCualPierdeAviso(t: Tablas, ses: Sesion, pedidoId: int, nuevo: Estado, ahora: int)
    requires EsCocina(ses) && pedidoId in t.pedidos && PermitidoEnCocina(nuevo)
    requires t.pedidos[pedidoId].usuarioId in t.usuarios
    ensures var n := Cocinado(t, pedidoId, nuevo, ahora);
      CambiadoCocinaTalCual(t, ses, pedidoId, nuevo, ahora) == Ok(Salida(Efecto(n, []), Some(ErrorInterno)))
    ensures var s := CambiadoCocina(t, ses, pedidoId, nuevo, ahora);
      var p := t.pedidos[pedidoId];
      && s.Ok? && s.value.tablas == Cocinado(t, pedidoId, nuevo, ahora)
      && s.value.avisos[0].tipo == CambioEstadoTipo
      && s.value.avisos[0].destinatarioId == Some(p.usuarioId)
      && s.value.avisos[0].mensaje == Tabla(Nombre(nuevo)).value
  {
    var p := t.pedidos[pedidoId];
    TablaPorNombre(nuevo);
    assert CambioEstado(pedidoId, p.tokenRecoger, Nombre(nuevo), p.usuarioId)[0].mensaje == Tabla(Nombre(nuevo)).value;
  }

  /** The intended endpoint keeps the tables valid. */
  lemma CambiadoCocinaValida(t: Tablas, ses: Sesion, pedidoId: int, nuevo: Estado, ahora: int)
    requires TablasValidas(t) && CambiadoCocina(t, ses, pedidoId, nuevo, ahora).Ok?
    ensures TablasValidas(CambiadoCocina(t, ses, pedidoId, nuevo, ahora).value.tablas)
  {
    CambioValida(t, CambiadoCocina(t, ses, pedidoId, nuevo, ahora).value.tablas, pedidoId);
  }

  /** The kitchen does not look at the current state: a cancelled or delivered order can be put back in the kitchen. */
  lemma CocinaSinEstadoPrevio(t: Tablas, ses: Sesion, pedidoId: int, ahora: int)
    requires EsCocina(ses) && pedidoId in t.pedidos
    requires t.pedidos[pedidoId].estado == Cancelado || t.pedidos[pedidoId].estado == Entregado
    ensures var s := CambiadoCocina(t, ses, pedidoId, EnCocina, ahora);
      s.Ok? && s.value.tablas.pedidos[pedidoId].estado == EnCocina
  {
  }

  /** `cambiar_estado_pedido` as intended: the transaction commits first, then the events; answers with the stored order. */
  method CambiarEstadoPedido(db: BaseDatos, g: GestorNotificaciones, ses: Sesion, pedidoId: int, nuevo: Estado, ahora: int)
    returns (r: Result<Pedido, Fallo>)
    requires db.Valid() && g.Valid()
    modifies db, g
    ensures var s := CambiadoCocina(old(db.Estado()), ses, pedidoId, nuevo, ahora);
      && Aplicado(db, g, s, ahora)
      && (s.Err? ==> r == Err(s.error))
      && (s.Ok? ==> r == Ok(db.pedidos[pedidoId]))
    ensures db.Valid() && g.Valid()
  {
    ghost var t := db.Estado();
    ghost var b := g.Estado();
    r := RegistrarCambioCocina(db, ses, pedidoId, nuevo, ahora);
    if r.Err? {
      return;
    }
    CambiadoCocinaValida(t, ses, pedidoId, nuevo, ahora);
    ghost var avisos := CambiadoCocina(t, ses, pedidoId, nuevo, ahora).value.avisos;
    var pedido := r.value;
    var c: seq<Aviso> := [];
    if pedido.usuarioId in db.usuarios {
      c := CambioEstado(pedidoId, pedido.tokenRecoger, Nombre(nuevo), pedido.usuarioId);
      g.Publicar(c, ahora);
    }
    assert g.Estado() == PublicarTodos(b, c, g.maxEventos, ahora);
    var l: seq<Aviso> := [];
    if nuevo == ListoParaEntrega && Truthy(pedido.deliveryAsignadoId) {
      if pedido.deliveryAsignadoId.value in db.usuarios {
        l := PedidoListo(pedidoId, pedido.tokenRecoger, pedido.deliveryAsignadoId);
        g.Publicar(l, ahora);
      }
    }
    assert g.Estado() == PublicarTodos(PublicarTodos(b, c, g.maxEventos, ahora), l, g.maxEventos, ahora);
    PublicarTodosConcat(b, c, l, g.maxEventos, ahora);
    assert c + l == avisos by {
      assert db.usuarios == t.usuarios && pedido == Cocinado(t, pedidoId, nuevo, ahora).pedidos[pedidoId];
    }
  }

  /** The transaction of `cambiar_estado_pedido`, up to `db.commit()`. */
  method RegistrarCambioCocina(db: BaseDatos, ses: Sesion, pedidoId: int, nuevo: Estado, ahora: int)
    returns (r: Result<Pedido, Fallo>)
    modifies db
    ensures var s := CambiadoCocina(old(db.Estado()), ses, pedidoId, nuevo, ahora);
      && (s.Err? ==> r == Err(s.error) && db.Estado() == old(db.Estado()))
      && (s.Ok? ==> db.Estado() == s.value.tablas && r == Ok(db.pedidos[pedidoId]))
  {
    if !EsCocina(ses) {
      return Err(Prohibido);
    }
    if pedidoId !in db.pedidos {
      return Err(PedidoNoEncontrado);
    }
    if !PermitidoEnCocina(nuevo) {
      return Err(EstadoNoPermitido);
    }
    ghost var t := db.Estado();
    var pedido := db.pedidos[pedidoId].(estado := nuevo);
    if nuevo == ListoParaEntrega {
      pedido := pedido.(fechaListoCocina := Some(ahora));
    }
    db.pedidos := db.pedidos[pedidoId := pedido];
    assert db.Estado() == Cocinado(t, pedidoId, nuevo, ahora);
    return Ok(pedido);
  }

  // ---------- obtener_estadisticas_cocina ----------

  const SegundosPorDia: int := 86400

  /** `func.date(fecha_pedido) == fecha`, with dates counted in days since the epoch. */
  predicate DelDia(p: Pedido, dia: int)
  {
    p.fechaPedido / SegundosPorDia == dia
  }

  /** The ids in `ids` whose order's state passes `f`, in the same order (a list comprehension). */
  function ConEstado(pedidos: map<int, Pedido>, ids: seq<int>, f: Estado -> bool): (r: seq<int>)
    requires forall k :: 0 <= k < |ids| ==> ids[k] in pedidos
    ensures |r| <= |ids|
    ensures forall k :: 0 <= k < |r| ==> r[k] in pedidos && f(pedidos[r[k]].estado)
    ensures forall k :: 0 <= k < |r| ==> r[k] in ids
    ensures forall i :: i in ids && f(pedidos[i].estado) ==> i in r
  {
    if ids == [] then []
    else
      var x := ids[|ids| - 1];
      var previos := ConEstado(pedidos, ids[..|ids| - 1], f);
      assert forall k :: 0 <= k < |previos| ==> previos[k] in ids by {
        forall k | 0 <= k < |previos| ensures previos[k] in ids {
          var j :| 0 <= j < |ids| - 1 && ids[..|ids| - 1][j] == previos[k];
          assert ids[j] == previos[k];
        }
      }
      previos + (if f(pedidos[x].estado) then [x] else [])
  }

  /** Three tests that split every state in exactly one way split any list of orders the same way. */
  lemma {:induction false} ParticionConEstado(pedidos: map<int, Pedido>, ids: seq<int>, f: Estado -> bool, g: Estado -> bool, h: Estado -> bool)
    requires forall k :: 0 <= k < |ids| ==> ids[k] in pedidos
    requires forall e :: (if f(e) then 1 else 0) + (if g(e) then 1 else 0) + (if h(e) then 1 else 0) == 1
    ensures |ConEstado(pedidos, ids, f)| + |ConEstado(pedidos, ids, g)| + |ConEstado(pedidos, ids, h)| == |ids|
  {
    if ids != [] {
      var x := ids[|ids| - 1];
      ParticionConEstado(pedidos, ids[..|ids| - 1], f, g, h);
      var e := pedidos[x].estado;
      assert (if f(e) then 1 else 0) + (if g(e) then 1 else 0) + (if h(e) then 1 else 0) == 1;
    }
  }

  /** Neither processed nor in process: PENDIENTE or CANCELADO. */
  predicate FueraDeCocina(e: Estado)
  {
    e == Pendiente || e == Cancelado
  }

  /** The counters of `obtener_estadisticas_cocina` that are whole numbers. */
  datatype Estadisticas = Estadisticas(
    procesados: nat,        // total_pedidos_procesados
    enProceso: nat,         // pedidos_en_proceso
    tiempos: seq<int>,      // tiempos_preparacion, in seconds
    platos: int)            // platos_preparados

  /** `x` seconds passed between the order's creation and its ready time. */
  predicate TiempoDe(p: Pedido, x: int)
  {
    p.fechaListoCocina == Some(p.fechaPedido + x)
  }

  /** Preparation time of each processed order that has a ready time, in list order. */
  function Tiempos(pedidos: map<int, Pedido>, ids: seq<int>): (r: seq<int>)
    requires forall k :: 0 <= k < |ids| ==> ids[k] in pedidos
    ensures |r| <= |ids|
    ensures forall x :: x in r ==> exists k :: 0 <= k < |ids| && TiempoDe(pedidos[ids[k]], x)
  {
    if ids == [] then []
    else
      var x := ids[|ids| - 1];
      var p := pedidos[x];
      var previos := Tiempos(pedidos, ids[..|ids| - 1]);
      var r := previos + (if p.fechaListoCocina.Some? then [p.fechaListoCocina.value - p.fechaPedido] else []);
      assert forall y :: y in r ==> exists k :: 0 <= k < |ids| && TiempoDe(pedidos[ids[k]], y) by {
        forall y | y in r ensures exists k :: 0 <= k < |ids| && TiempoDe(pedidos[ids[k]], y) {
          if y in previos {
            var k :| 0 <= k < |ids| - 1 && TiempoDe(pedidos[ids[..|ids| - 1][k]], y);
            assert ids[..|ids| - 1][k] == ids[k];
          } else {
            assert TiempoDe(pedidos[ids[|ids| - 1]], y);
          }
        }
      }
      r
  }

  /** `SUM(cantidad)` over the lines of the day's processed orders, 0 when there are none. */
  function PlatosPreparados(pedidos: map<int, Pedido>, items: seq<PedidoItem>, dia: int): int
  {
    if items == [] then 0
    else
      var x := items[|items| - 1];
      PlatosPreparados(pedidos, items[..|items| - 1], dia)
      + (if x.pedidoId in pedidos && DelDia(pedidos[x.pedidoId], dia) && Procesado(pedidos[x.pedidoId].estado)
         then x.cantidad else 0)
  }

  /** Lines of positive quantity give a count of dishes that is not negative; none of them counts when no order of the day is processed. */
  lemma {:induction false} PlatosAcotados(pedidos: map<int, Pedido>, items: seq<PedidoItem>, dia: int)
    requires forall k :: 0 <= k < |items| ==> items[k].cantidad >= 1
    ensures PlatosPreparados(pedidos, items, dia) >= 0
    ensures (forall p :: p in pedidos && DelDia(pedidos[p], dia) ==> !Procesado(pedidos[p].estado))
            ==> PlatosPreparados(pedidos, items, dia) == 0
  {
    if items != [] {
      PlatosAcotados(pedidos, items[..|items| - 1], dia);
    }
  }

  /** `pedidos_del_dia`: the ids of the orders placed on `dia`. */
  function PedidosDelDia(pedidos: map<int, Pedido>, dia: int): (r: seq<int>)
    ensures forall i :: i in r <==> i in pedidos && DelDia(pedidos[i], dia)
    ensures forall k :: 0 <= k < |r| ==> r[k] in pedidos
    ensures SinRepetidos(r)
  {
    var r := Seleccion(pedidos, (p: Pedido) => DelDia(p, dia));
    assert forall i :: i in r <==> i in pedidos && DelDia(pedidos[i], dia);
    r
  }

  /** The order `i` exists and its state passes `f`. */
  predicate Pasa(pedidos: map<int, Pedido>, f: Estado -> bool, i: int)
  {
    i in pedidos && f(pedidos[i].estado)
  }

  /** With no repeated ids, the filtered list has one entry per id that passes the test. */
  lemma {:induction false} ConEstadoCuenta(pedidos: map<int, Pedido>, ids: seq<int>, f: Estado -> bool)
    requires forall k :: 0 <= k < |ids| ==> ids[k] in pedidos
    requires SinRepetidos(ids)
    ensures |ConEstado(pedidos, ids, f)| == |set i | i in ids && Pasa(pedidos, f, i)|
  {
    if ids != [] {
      var x := ids[|ids| - 1];
      var p := ids[..|ids| - 1];
      assert SinRepetidos(p) by {
        forall i, j | 0 <= i < j < |p| ensures p[i] != p[j] {
          assert p[i] == ids[i] && p[j] == ids[j];
        }
      }
      assert x !in p by {
        forall k | 0 <= k < |p| ensures p[k] != x {
          assert p[k] == ids[k];
        }
      }
      ConEstadoCuenta(pedidos, p, f);
      assert ids == p + [x];
      CuentaUltimo(pedidos, f, p, x);
    }
  }

  /** Appending a new id adds one to the count exactly when that id passes. */
  lemma CuentaUltimo(pedidos: map<int, Pedido>, f: Estado -> bool, p: seq<int>, x: int)
    requires x !in p
    ensures |set i | i in p + [x] && Pasa(pedidos, f, i)|
         == |set i | i in p && Pasa(pedidos, f, i)| + (if Pasa(pedidos, f, x) then 1 else 0)
  {
    var antes := set i | i in p && Pasa(pedidos, f, i);
    var ahora := set i | i in p + [x] && Pasa(pedidos, f, i);
    if Pasa(pedidos, f, x) {
      assert ahora == antes + {x};
    } else {
      assert ahora == antes;
    }
  }

  /** Orders of the day whose state passes `f`, counted as a set of ids. */
  lemma DelDiaCuenta(pedidos: map<int, Pedido>, dia: int, f: Estado -> bool)
    ensures |ConEstado(pedidos, PedidosDelDia(pedidos, dia), f)|
         == |set i | i in pedidos && DelDia(pedidos[i], dia) && Pasa(pedidos, f, i)|
  {
    var s := PedidosDelDia(pedidos, dia);
    ConEstadoCuenta(pedidos, s, f);
    var a := set i | i in s && Pasa(pedidos, f, i);
    var b := set i | i in pedidos && DelDia(pedidos[i], dia) && Pasa(pedidos, f, i);
    assert a == b by {
      forall i ensures i in a <==> i in b {
        assert i in s <==> i in pedidos && DelDia(pedidos[i], dia);
      }
    }
  }

  /**
   * `obtener_estadisticas_cocina` for `dia`: of the day's orders, those
   * ready or later and those still in the kitchen, and the preparation time
   * of each processed one with a ready time.
   */
  function EstadisticasDelDia(t: Tablas, ses: Sesion, dia: int): (r: Result<Estadisticas, Fallo>)
    ensures !EsCocina(ses) <==> r == Err(Prohibido)
    ensures r.Ok? ==> r.value.procesados == |set i | i in t.pedidos && DelDia(t.pedidos[i], dia) && Pasa(t.pedidos, Procesado, i)|
    ensures r.Ok? ==> r.value.enProceso == |set i | i in t.pedidos && DelDia(t.pedidos[i], dia) && Pasa(t.pedidos, EnProceso, i)|
    ensures r.Ok? ==> r.value.procesados + r.value.enProceso
                      + |ConEstado(t.pedidos, PedidosDelDia(t.pedidos, dia), FueraDeCocina)|
                      == |PedidosDelDia(t.pedidos, dia)|
    ensures r.Ok? ==> r.value.tiempos == Tiempos(t.pedidos, ConEstado(t.pedidos, PedidosDelDia(t.pedidos, dia), Procesado))
    ensures r.Ok? ==> |r.value.tiempos| <= r.value.procesados
  {
    if !EsCocina(ses) then Err(Prohibido)
    else
      var delDia := PedidosDelDia(t.pedidos, dia);
      DelDiaCuenta(t.pedidos, dia, Procesado);
      DelDiaCuenta(t.pedidos, dia, EnProceso);
      var procesados := ConEstado(t.pedidos, delDia, Procesado);
      var enProceso := ConEstado(t.pedidos, delDia, EnProceso);
      ParticionConEstado(t.pedidos, delDia, Procesado, EnProceso, FueraDeCocina);
      var tiempos := Tiempos(t.pedidos, procesados);
      Ok(Estadisticas(|procesados|, |enProceso|, tiempos, PlatosPreparados(t.pedidos, t.items, dia)))
  }

  /** Every preparation time reported for `dia` is that of a processed order of the day. */
  lemma TiemposDelDia(pedidos: map<int, Pedido>, dia: int)
    ensures forall x :: x in Tiempos(pedidos, ConEstado(pedidos, PedidosDelDia(pedidos, dia), Procesado)) ==>
      exists i :: i in pedidos && DelDia(pedidos[i], dia) && Procesado(pedidos[i].estado) && TiempoDe(pedidos[i], x)
  {
    var procesados := ConEstado(pedidos, PedidosDelDia(pedidos, dia), Procesado);
    forall x | x in Tiempos(pedidos, procesados)
      ensures exists i :: i in pedidos && DelDia(pedidos[i], dia) && Procesado(pedidos[i].estado) && TiempoDe(pedidos[i], x)
    {
      var k :| 0 <= k < |procesados| && TiempoDe(pedidos[procesados[k]], x);
      assert procesados[k] in PedidosDelDia(pedidos, dia);
    }
  }

  /** No order is counted both as processed and as in process. */
  lemma ProcesadosDisjuntos(pedidos: map<int, Pedido>, ids: seq<int>)
    requires forall k :: 0 <= k < |ids| ==> ids[k] in pedidos
    ensures forall i :: !(i in ConEstado(pedidos, ids, Procesado) && i in ConEstado(pedidos, ids, EnProceso))
  {
  }
}
