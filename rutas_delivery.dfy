/**
 * The courier endpoints: the courier's own deliveries, taking a ready order
 * from the kitchen (EN_REPARTO), and handing it over (ENTREGADO, optionally
 * paid), each with the client's events.
 */
module RutasDelivery {
  import opened Base
  import opened Enums
  import opened Errores
  import opened Orden
  import opened Modelos
  import opened Notificaciones
  import opened Publicadores
  import opened Tienda

  /** `rol_id in [1, 3]`: administrators and couriers. */
  predicate EsReparto(ses: Sesion)
  {
    ses.rolId == RolAdmin || ses.rolId == RolDelivery
  }

  /** `pedido.delivery_asignado_id == current_user.usuario_id`: an unassigned order is nobody's. */
  predicate AsignadoA(p: Pedido, ses: Sesion)
  {
    p.deliveryAsignadoId == Some(ses.usuarioId)
  }

  /** The states in which an order is on a courier's list. */
  predicate PorEntregar(e: Estado)
  {
    e == ListoParaEntrega || e == EnReparto
  }

  // ---------- obtener_mis_entregas ----------

  function ClaveOpcional(f: Option<int>): Clave
  {
    if f.Some? then Clave.Valor(f.value) else Clave.Nulo
  }

  /** `ORDER BY fecha_listo_cocina ASC`, orders not yet ready last. */
  function PorFechaListo(pedidos: map<int, Pedido>): int -> Clave
  {
    (i: int) => if i in pedidos then ClaveOpcional(pedidos[i].fechaListoCocina) else Clave.Nulo
  }

  /**
   * The ids `obtener_mis_entregas` lists: the caller's orders that are ready
   * or on their way, earliest ready first, each once.
   */
  function MisEntregas(t: Tablas, ses: Sesion): (r: Result<seq<int>, Fallo>)
    ensures !EsReparto(ses) <==> r == Err(Prohibido)
    ensures r.Ok? ==> forall i :: i in r.value <==> i in t.pedidos && AsignadoA(t.pedidos[i], ses)
                                                     && PorEntregar(t.pedidos[i].estado)
    ensures r.Ok? ==> SinRepetidos(r.value)
    ensures r.Ok? ==> forall i :: 0 <= i < |r.value| ==> r.value[i] in t.pedidos
    ensures r.Ok? ==> forall i, j :: 0 <= i < j < |r.value| ==>
                        Leq(ClaveOpcional(t.pedidos[r.value[i]].fechaListoCocina), ClaveOpcional(t.pedidos[r.value[j]].fechaListoCocina))
  {
    if !EsReparto(ses) then Err(Prohibido)
    else
      var s := Seleccion(t.pedidos, (p: Pedido) => AsignadoA(p, ses) && PorEntregar(p.estado));
      var k := PorFechaListo(t.pedidos);
      var r := OrdenarEstable(s, k);
      assert SinRepetidos(s);
      EntregasOrdenadas(t.pedidos, s, k);
      Ok(r)
  }

  lemma EntregasOrdenadas(pedidos: map<int, Pedido>, s: seq<int>, k: int -> Clave)
    requires k == PorFechaListo(pedidos)
    requires SinRepetidos(s)
    requires forall i :: i in s ==> i in pedidos
    ensures var r := OrdenarEstable(s, k);
      && (forall i :: i in r <==> i in s)
      && SinRepetidos(r)
      && (forall i :: 0 <= i < |r| ==> r[i] in pedidos)
      && forall i, j :: 0 <= i < j < |r| ==>
           Leq(ClaveOpcional(pedidos[r[i]].fechaListoCocina), ClaveOpcional(pedidos[r[j]].fechaListoCocina))
  {
    var r := OrdenarEstable(s, k);
    OrdenarSeleccion(s, k);
    forall i, j | 0 <= i < j < |r|
      ensures Leq(ClaveOpcional(pedidos[r[i]].fechaListoCocina), ClaveOpcional(pedidos[r[j]].fechaListoCocina))
    {
      assert Leq(k(r[i]), k(r[j]));
      assert r[i] in s && r[j] in s;
    }
  }

  /** An order without a ready time never comes before one that has it. */
  lemma SinFechaAlFinal(t: Tablas, ses: Sesion, i: int, j: int)
    requires MisEntregas(t, ses).Ok?
    requires 0 <= i < j < |MisEntregas(t, ses).value|
    requires t.pedidos[MisEntregas(t, ses).value[i]].fechaListoCocina.None?
    ensures t.pedidos[MisEntregas(t, ses).value[j]].fechaListoCocina.None?
  {
    var r := MisEntregas(t, ses).value;
    assert Leq(ClaveOpcional(t.pedidos[r[i]].fechaListoCocina), ClaveOpcional(t.pedidos[r[j]].fechaListoCocina));
  }

  // ---------- tomar_pedido ----------

  /** The client hears who is bringing the order, then that it is on its way. */
  function AvisosTomar(pedidoId: int, p: Pedido, repartidor: string): (r: seq<Aviso>)
    ensures |r| == 2
    ensures r[0].tipo == EnCaminoTipo && r[1].tipo == CambioEstadoTipo
    ensures forall k :: 0 <= k < 2 ==> r[k].destinatarioRol == RolCliente && r[k].destinatarioId == Some(p.usuarioId)
    ensures r[1].mensaje == "Tu pedido está en camino"
  {
    DeliveryEnCamino(pedidoId, p.tokenRecoger, p.usuarioId, repartidor)
    + CambioEstado(pedidoId, p.tokenRecoger, Nombre(EnReparto), p.usuarioId)
  }

  /**
   * What `tomar_pedido` does: administrators and couriers, on an order
   * assigned to the caller that is LISTO_PARA_ENTREGA; it becomes EN_REPARTO,
   * stamped now, and the client is told.
   */
  function PedidoTomado(t: Tablas, ses: Sesion, pedidoId: int, ahora: int): (r: Result<Efecto, Fallo>)
    ensures !EsReparto(ses) ==> r == Err(Prohibido)
    ensures EsReparto(ses) && pedidoId !in t.pedidos ==> r == Err(PedidoNoEncontrado)
    ensures EsReparto(ses) && pedidoId in t.pedidos && !AsignadoA(t.pedidos[pedidoId], ses) ==> r == Err(NoAsignado)
    ensures (EsReparto(ses) && pedidoId in t.pedidos && AsignadoA(t.pedidos[pedidoId], ses)
             && t.pedidos[pedidoId].estado != ListoParaEntrega) ==> r == Err(EstadoIncorrecto(t.pedidos[pedidoId].estado))
    ensures r.Ok? <==> && EsReparto(ses) && pedidoId in t.pedidos && AsignadoA(t.pedidos[pedidoId], ses)
                       && t.pedidos[pedidoId].estado == ListoParaEntrega
    ensures r.Ok? ==> && SoloPedido(t, r.value.tablas, pedidoId)
                      && r.value.tablas.pedidos[pedidoId]
                         == t.pedidos[pedidoId].(estado := EnReparto, fechaEnReparto := Some(ahora))
                      && r.value.avisos == AvisosTomar(pedidoId, t.pedidos[pedidoId], ses.nombreCompleto)
  {
    if !EsReparto(ses) then Err(Prohibido)
    else if pedidoId !in t.pedidos then Err(PedidoNoEncontrado)
    else
      var p := t.pedidos[pedidoId];
      if !AsignadoA(p, ses) then Err(NoAsignado)
      else if p.estado != ListoParaEntrega then Err(EstadoIncorrecto(p.estado))
      else
        var q := Estampado(p, EnReparto, ahora);
        assert q == p.(estado := EnReparto, fechaEnReparto := Some(ahora));
        Ok(Efecto(t.(pedidos := t.pedidos[pedidoId := q]), AvisosTomar(pedidoId, p, ses.nombreCompleto)))
  }

  /** An order is taken once: the second attempt finds it EN_REPARTO. */
  lemma TomarDosVeces(t: Tablas, ses: Sesion, pedidoId: int, ahora: int, despues: int)
    requires PedidoTomado(t, ses, pedidoId, ahora).Ok?
    ensures PedidoTomado(PedidoTomado(t, ses, pedidoId, ahora).value.tablas, ses, pedidoId, despues)
            == Err(EstadoIncorrecto(EnReparto))
  {
  }

  /** On success the outcome is the order stamped EN_REPARTO and the two events for its client. */
  lemma TomadoEs(t: Tablas, ses: Sesion, pedidoId: int, ahora: int)
    requires PedidoTomado(t, ses, pedidoId, ahora).Ok?
    ensures var p := t.pedidos[pedidoId];
      PedidoTomado(t, ses, pedidoId, ahora).value
      == Efecto(t.(pedidos := t.pedidos[pedidoId := p.(estado := EnReparto, fechaEnReparto := Some(ahora))]),
                AvisosTomar(pedidoId, p, ses.nombreCompleto))
  {
  }

  /** Taking an order keeps the tables valid. */
  lemma TomadoValida(t: Tablas, ses: Sesion, pedidoId: int, ahora: int)
    requires TablasValidas(t) && PedidoTomado(t, ses, pedidoId, ahora).Ok?
    ensures TablasValidas(PedidoTomado(t, ses, pedidoId, ahora).value.tablas)
  {
    CambioValida(t, PedidoTomado(t, ses, pedidoId, ahora).value.tablas, pedidoId);
  }

  // ---------- finalizar_entrega ----------

  /**
   * What `finalizar_entrega` does: couriers only, on an order assigned to the
   * caller that is EN_REPARTO; it becomes ENTREGADO, stamped now, and is
   * marked paid when the courier confirms payment (an unpaid mark is never
   * undone nor set otherwise); the client is told.
   */
  function EntregaFinalizada(t: Tablas, ses: Sesion, pedidoId: int, confirmarPago: bool, ahora: int): (r: Result<Efecto, Fallo>)
    ensures ses.rolId != RolDelivery ==> r == Err(Prohibido)
    ensures ses.rolId == RolDelivery && pedidoId !in t.pedidos ==> r == Err(PedidoNoEncontrado)
    ensures (ses.rolId == RolDelivery && pedidoId in t.pedidos && !AsignadoA(t.pedidos[pedidoId], ses))
            ==> r == Err(NoAsignado)
    ensures (ses.rolId == RolDelivery && pedidoId in t.pedidos && AsignadoA(t.pedidos[pedidoId], ses)
             && t.pedidos[pedidoId].estado != EnReparto) ==> r == Err(EstadoIncorrecto(t.pedidos[pedidoId].estado))
    ensures r.Ok? <==> && ses.rolId == RolDelivery && pedidoId in t.pedidos && AsignadoA(t.pedidos[pedidoId], ses)
                       && t.pedidos[pedidoId].estado == EnReparto
    ensures r.Ok? ==> SoloPedido(t, r.value.tablas, pedidoId)
    ensures r.Ok? ==> var p := t.pedidos[pedidoId];
                      var q := r.value.tablas.pedidos[pedidoId];
                      && q.estado == Entregado && q.fechaEntrega == Some(ahora)
                      && q.estaPagado == (p.estaPagado || confirmarPago)
                      && q == p.(estado := Entregado, fechaEntrega := Some(ahora), estaPagado := q.estaPagado)
                      && r.value.avisos == CambioEstado(pedidoId, p.tokenRecoger, Nombre(Entregado), p.usuarioId)
  {
    if ses.rolId != RolDelivery then Err(Prohibido)
    else if pedidoId !in t.pedidos then Err(PedidoNoEncontrado)
    else
      var p := t.pedidos[pedidoId];
      if !AsignadoA(p, ses) then Err(NoAsignado)
      else if p.estado != EnReparto then Err(EstadoIncorrecto(p.estado))
      else
        var e := Estampado(p, Entregado, ahora);
        var q := if confirmarPago then e.(estaPagado := true) else e;
        Ok(Efecto(t.(pedidos := t.pedidos[pedidoId := q]),
                  CambioEstado(pedidoId, p.tokenRecoger, Nombre(Entregado), p.usuarioId)))
  }

  /** A taken order is on the courier's list. */
  lemma TomadoEnLista(t: Tablas, ses: Sesion, pedidoId: int, ahora: int)
    requires PedidoTomado(t, ses, pedidoId, ahora).Ok?
    ensures pedidoId in MisEntregas(PedidoTomado(t, ses, pedidoId, ahora).value.tablas, ses).value
  {
    var n := PedidoTomado(t, ses, pedidoId, ahora).value.tablas;
    var q := n.pedidos[pedidoId];
    assert AsignadoA(q, ses) && PorEntregar(q.estado);
  }

  /** A delivered order leaves the courier's list. */
  lemma EntregadoFueraDeLista(t: Tablas, ses: Sesion, pedidoId: int, confirmarPago: bool, ahora: int)
    requires EntregaFinalizada(t, ses, pedidoId, confirmarPago, ahora).Ok?
    ensures pedidoId !in MisEntregas(EntregaFinalizada(t, ses, pedidoId, confirmarPago, ahora).value.tablas, ses).value
  {
    var n := EntregaFinalizada(t, ses, pedidoId, confirmarPago, ahora).value.tablas;
    assert !PorEntregar(n.pedidos[pedidoId].estado);
  }

  /** A courier who takes a ready order can hand it over: it ends ENTREGADO with both instants stamped. */
  lemma TomarYFinalizar(t: Tablas, ses: Sesion, pedidoId: int, confirmarPago: bool, ahora: int, despues: int)
    requires ses.rolId == RolDelivery && PedidoTomado(t, ses, pedidoId, ahora).Ok?
    ensures var n := PedidoTomado(t, ses, pedidoId, ahora).value.tablas;
      var f := EntregaFinalizada(n, ses, pedidoId, confirmarPago, despues);
      && f.Ok?
      && f.value.tablas.pedidos[pedidoId].estado == Entregado
      && f.value.tablas.pedidos[pedidoId].fechaEnReparto == Some(ahora)
      && f.value.tablas.pedidos[pedidoId].fechaEntrega == Some(despues)
  {
    var n := PedidoTomado(t, ses, pedidoId, ahora).value.tablas;
    assert n.pedidos[pedidoId].estado == EnReparto;
  }

  /** Handing over keeps the tables valid. */
  lemma FinalizadaValida(t: Tablas, ses: Sesion, pedidoId: int, confirmarPago: bool, ahora: int)
    requires TablasValidas(t) && EntregaFinalizada(t, ses, pedidoId, confirmarPago, ahora).Ok?
    ensures TablasValidas(EntregaFinalizada(t, ses, pedidoId, confirmarPago, ahora).value.tablas)
  {
    CambioValida(t, EntregaFinalizada(t, ses, pedidoId, confirmarPago, ahora).value.tablas, pedidoId);
  }

  // ---------- the endpoints ----------

  /** `tomar_pedido`: the transaction commits first, then the client is told twice; answers with the stored order. */
  method TomarPedido(db: BaseDatos, g: GestorNotificaciones, ses: Sesion, pedidoId: int, ahora: int)
    returns (r: Result<Pedido, Fallo>)
    requires db.Valid() && g.Valid()
    modifies db, g
    ensures var s := PedidoTomado(old(db.Estado()), ses, pedidoId, ahora);
      && Aplicado(db, g, s, ahora)
      && (s.Err? ==> r == Err(s.error))
      && (s.Ok? ==> r == Ok(db.pedidos[pedidoId]))
    ensures db.Valid() && g.Valid()
  {
    ghost var t := db.Estado();
    ghost var b := g.Estado();
    r := RegistrarToma(db, ses, pedidoId, ahora);
    if r.Err? {
      return;
    }
    TomadoValida(t, ses, pedidoId, ahora);
    ghost var avisos := PedidoTomado(t, ses, pedidoId, ahora).value.avisos;
    var pedido := r.value;
    var enCamino := DeliveryEnCamino(pedidoId, pedido.tokenRecoger, pedido.usuarioId, ses.nombreCompleto);
    var cambio := CambioEstado(pedidoId, pedido.tokenRecoger, "EN_REPARTO", pedido.usuarioId);
    assert enCamino + cambio == avisos by {
      assert pedido.tokenRecoger == t.pedidos[pedidoId].tokenRecoger && pedido.usuarioId == t.pedidos[pedidoId].usuarioId;
      assert Nombre(EnReparto) == "EN_REPARTO";
    }
    g.Publicar(enCamino, ahora);
    g.Publicar(cambio, ahora);
    PublicarTodosConcat(b, enCamino, cambio, g.maxEventos, ahora);
    assert g.Estado() == PublicarTodos(b, avisos, g.maxEventos, ahora);
  }

  /** The transaction of `tomar_pedido`, up to `db.commit()`. */
  method RegistrarToma(db: BaseDatos, ses: Sesion, pedidoId: int, ahora: int) returns (r: Result<Pedido, Fallo>)
    modifies db
    ensures var s := PedidoTomado(old(db.Estado()), ses, pedidoId, ahora);
      && (s.Err? ==> r == Err(s.error) && db.Estado() == old(db.Estado()))
      && (s.Ok? ==> db.Estado() == s.value.tablas && r == Ok(db.pedidos[pedidoId]))
  {
    if !EsReparto(ses) {
      return Err(Prohibido);
    }
    if pedidoId !in db.pedidos {
      return Err(PedidoNoEncontrado);
    }
    var pedido := db.pedidos[pedidoId];
    if pedido.deliveryAsignadoId != Some(ses.usuarioId) {
      return Err(NoAsignado);
    }
    if pedido.estado != ListoParaEntrega {
      return Err(EstadoIncorrecto(pedido.estado));
    }
    ghost var t := db.Estado();
    pedido := pedido.(estado := EnReparto, fechaEnReparto := Some(ahora));
    db.pedidos := db.pedidos[pedidoId := pedido];
    assert db.Estado() == t.(pedidos := t.pedidos[pedidoId := pedido]);
    TomadoEs(t, ses, pedidoId, ahora);
    return Ok(pedido);
  }

  /** `finalizar_entrega`: the transaction commits first, then the client is told; answers with the stored order. */
  method FinalizarEntrega(db: BaseDatos, g: GestorNotificaciones, ses: Sesion, pedidoId: int, confirmarPago: bool, ahora: int)
    returns (r: Result<Pedido, Fallo>)
    requires db.Valid() && g.Valid()
    modifies db, g
    ensures var s := EntregaFinalizada(old(db.Estado()), ses, pedidoId, confirmarPago, ahora);
      && Aplicado(db, g, s, ahora)
      && (s.Err? ==> r == Err(s.error))
      && (s.Ok? ==> r == Ok(db.pedidos[pedidoId]))
    ensures db.Valid() && g.Valid()
  {
    ghost var t := db.Estado();
    r := RegistrarEntrega(db, ses, pedidoId, confirmarPago, ahora);
    if r.Err? {
      return;
    }
    FinalizadaValida(t, ses, pedidoId, confirmarPago, ahora);
    ghost var avisos := EntregaFinalizada(t, ses, pedidoId, confirmarPago, ahora).value.avisos;
    var pedido := r.value;
    var aviso := CambioEstado(pedidoId, pedido.tokenRecoger, "ENTREGADO", pedido.usuarioId);
    assert aviso == avisos by {
      assert pedido.tokenRecoger == t.pedidos[pedidoId].tokenRecoger && pedido.usuarioId == t.pedidos[pedidoId].usuarioId;
      assert Nombre(Entregado) == "ENTREGADO";
    }
    g.Publicar(aviso, ahora);
  }

  /** The transaction of `finalizar_entrega`, up to `db.commit()`. */
  method RegistrarEntrega(db: BaseDatos, ses: Sesion, pedidoId: int, confirmarPago: bool, ahora: int)
    returns (r: Result<Pedido, Fallo>)
    modifies db
    ensures var s := EntregaFinalizada(old(db.Estado()), ses, pedidoId, confirmarPago, ahora);
      && (s.Err? ==> r == Err(s.error) && db.Estado() == old(db.Estado()))
      && (s.Ok? ==> db.Estado() == s.value.tablas && r == Ok(db.pedidos[pedidoId]))
  {
    if ses.rolId != RolDelivery {
      return Err(Prohibido);
    }
    if pedidoId !in db.pedidos {
      return Err(PedidoNoEncontrado);
    }
    var pedido := db.pedidos[pedidoId];
    if pedido.deliveryAsignadoId != Some(ses.usuarioId) {
      return Err(NoAsignado);
    }
    if pedido.estado != EnReparto {
      return Err(EstadoIncorrecto(pedido.estado));
    }
    ghost var t := db.Estado();
    pedido := pedido.(estado := Entregado, fechaEntrega := Some(ahora));
    if confirmarPago {
      pedido := pedido.(estaPagado := true);
    }
    db.pedidos := db.pedidos[pedidoId := pedido];
    assert db.Estado() == t.(pedidos := t.pedidos[pedidoId := pedido]);
    assert EntregaFinalizada(t, ses, pedidoId, confirmarPago, ahora).value.tablas == db.Estado();
    return Ok(pedido);
  }
}
