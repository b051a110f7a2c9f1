/**
 * The administration endpoints that touch the order lifecycle: the
 * administrator guard, the menu-of-the-day update, removing a staff member,
 * confirming an order, reassigning its courier, forcing its state, and
 * cancelling it. None of them publishes an event.
 */
module RutasAdmin {
  import opened Base
  import opened Enums
  import opened Errores
  import opened Modelos
  import opened Esquemas
  import opened Stock
  import opened Tienda

  /** `verificar_admin`: only role 1 passes. */
  predicate EsAdmin(ses: Sesion)
  {
    ses.rolId == RolAdmin
  }

  // ---------- actualizar_menu_dia ----------

  /** The fields of the request that are set replace the menu's; the others stay. */
  function Parchear(m: MenuDia, req: ActualizarMenuRequest): (r: MenuDia)
    ensures req.cantidadDisponible.Some? ==> r.cantidadDisponible == req.cantidadDisponible.value
    ensures req.cantidadDisponible.None? ==> r.cantidadDisponible == m.cantidadDisponible
    ensures req.precioMenu.Some? ==> r.precioMenu == req.precioMenu.value
    ensures req.precioMenu.None? ==> r.precioMenu == m.precioMenu
    ensures req.imagenUrl.Some? ==> r.imagenUrl == req.imagenUrl.value
    ensures req.imagenUrl.None? ==> r.imagenUrl == m.imagenUrl
    ensures req.publicado.Some? ==> r.publicado == req.publicado.value
    ensures req.publicado.None? ==> r.publicado == m.publicado
  {
    var m1 := if req.cantidadDisponible.Some? then m.(cantidadDisponible := req.cantidadDisponible.value) else m;
    var m2 := if req.precioMenu.Some? then m1.(precioMenu := req.precioMenu.value) else m1;
    var m3 := if req.imagenUrl.Some? then m2.(imagenUrl := req.imagenUrl.value) else m2;
    if req.publicado.Some? then m3.(publicado := req.publicado.value) else m3
  }

  /** A menu the administrator can leave behind: stock not negative, price positive. */
  predicate MenuValido(m: MenuDia)
  {
    m.cantidadDisponible >= 0 && m.precioMenu > 0
  }

  /** An empty request changes nothing. */
  lemma ParchearVacio(m: MenuDia)
    ensures Parchear(m, ActualizarMenuRequest(None, None, None, None)) == m
  {
  }

  /** Sending the same request twice gives the menu the first one gave. */
  lemma ParchearIdempotente(m: MenuDia, req: ActualizarMenuRequest)
    ensures Parchear(Parchear(m, req), req) == Parchear(m, req)
  {
  }

  /** An accepted request keeps a valid menu valid. */
  lemma ParchearConservaValido(m: MenuDia, req: ActualizarMenuRequest)
    requires MenuValido(m) && ActualizarMenuValido(req)
    ensures MenuValido(Parchear(m, req))
  {
  }

  /**
   * What `actualizar_menu_dia` does: the request is validated first, then the
   * caller's role, then the menu must exist; only that menu changes.
   */
  function MenuActualizado(t: Tablas, ses: Sesion, menuId: int, req: ActualizarMenuRequest): (r: Result<Tablas, Fallo>)
    ensures !ActualizarMenuValido(req) ==> r == Err(ParametroInvalido)
    ensures ActualizarMenuValido(req) && !EsAdmin(ses) ==> r == Err(Prohibido)
    ensures ActualizarMenuValido(req) && EsAdmin(ses) && menuId !in t.menus ==> r == Err(MenuInexistente)
    ensures r.Ok? <==> ActualizarMenuValido(req) && EsAdmin(ses) && menuId in t.menus
    ensures r.Ok? ==> r.value == t.(menus := t.menus[menuId := Parchear(t.menus[menuId], req)])
  {
    if !ActualizarMenuValido(req) then Err(ParametroInvalido)
    else if !EsAdmin(ses) then Err(Prohibido)
    else if menuId !in t.menus then Err(MenuInexistente)
    else Ok(t.(menus := t.menus[menuId := Parchear(t.menus[menuId], req)]))
  }

  /** Every menu stays valid across an update, and the other menus are untouched. */
  lemma MenuActualizadoValido(t: Tablas, ses: Sesion, menuId: int, req: ActualizarMenuRequest)
    requires forall m :: m in t.menus ==> MenuValido(t.menus[m])
    requires MenuActualizado(t, ses, menuId, req).Ok?
    ensures var n := MenuActualizado(t, ses, menuId, req).value;
      && n.menus.Keys == t.menus.Keys
      && (forall m :: m in n.menus ==> MenuValido(n.menus[m]))
      && (forall m :: m in t.menus && m != menuId ==> n.menus[m] == t.menus[m])
  {
    ParchearConservaValido(t.menus[menuId], req);
  }

  // ---------- desactivar_empleado ----------

  /** The states in which an order still needs its courier. */
  predicate Activo(e: Estado)
  {
    e == Confirmado || e == EnCocina || e == ListoParaEntrega || e == EnReparto
  }

  /** Some order in an active state is assigned to user `u`. */
  predicate ConPedidosActivos(pedidos: map<int, Pedido>, u: int)
  {
    exists p :: p in pedidos && pedidos[p].deliveryAsignadoId == Some(u) && Activo(pedidos[p].estado)
  }

  /**
   * What `desactivar_empleado` does: the user must exist, must not be the
   * caller, must be staff (roles 1 to 3), and a courier must have no active
   * order; then the user is deleted.
   */
  function EmpleadoDesactivado(t: Tablas, ses: Sesion, empleadoId: int): (r: Result<Tablas, Fallo>)
    ensures !EsAdmin(ses) ==> r == Err(Prohibido)
    ensures EsAdmin(ses) && empleadoId !in t.usuarios ==> r == Err(EmpleadoNoEncontrado)
    ensures EsAdmin(ses) && empleadoId in t.usuarios && empleadoId == ses.usuarioId ==> r == Err(AutoEliminacion)
    ensures (EsAdmin(ses) && empleadoId in t.usuarios && empleadoId != ses.usuarioId
             && t.usuarios[empleadoId].rolId !in {RolAdmin, RolCocina, RolDelivery}) ==> r == Err(NoEsEmpleado)
    ensures (EsAdmin(ses) && empleadoId in t.usuarios && empleadoId != ses.usuarioId
             && t.usuarios[empleadoId].rolId == RolDelivery && ConPedidosActivos(t.pedidos, empleadoId))
            ==> r == Err(DeliveryConPedidosActivos)
    ensures r.Ok? <==> && EsAdmin(ses) && empleadoId in t.usuarios && empleadoId != ses.usuarioId
                       && t.usuarios[empleadoId].rolId in {RolAdmin, RolCocina, RolDelivery}
                       && !(t.usuarios[empleadoId].rolId == RolDelivery && ConPedidosActivos(t.pedidos, empleadoId))
    ensures r.Ok? ==> r.value == t.(usuarios := t.usuarios - {empleadoId})
  {
    if !EsAdmin(ses) then Err(Prohibido)
    else if empleadoId !in t.usuarios then Err(EmpleadoNoEncontrado)
    else if empleadoId == ses.usuarioId then Err(AutoEliminacion)
    else if t.usuarios[empleadoId].rolId !in {RolAdmin, RolCocina, RolDelivery} then Err(NoEsEmpleado)
    else if t.usuarios[empleadoId].rolId == RolDelivery && ConPedidosActivos(t.pedidos, empleadoId) then
      Err(DeliveryConPedidosActivos)
    else Ok(t.(usuarios := t.usuarios - {empleadoId}))
  }

  /** After a courier is removed, no active order is left assigned to them; a second removal finds nobody. */
  lemma DesactivadoSinActivos(t: Tablas, ses: Sesion, empleadoId: int)
    requires EmpleadoDesactivado(t, ses, empleadoId).Ok?
    requires t.usuarios[empleadoId].rolId == RolDelivery
    ensures var n := EmpleadoDesactivado(t, ses, empleadoId).value;
      && (forall p :: p in n.pedidos && Activo(n.pedidos[p].estado) ==> n.pedidos[p].deliveryAsignadoId != Some(empleadoId))
      && EmpleadoDesactivado(n, ses, empleadoId) == Err(EmpleadoNoEncontrado)
  {
    var n := EmpleadoDesactivado(t, ses, empleadoId).value;
    forall p | p in n.pedidos && Activo(n.pedidos[p].estado)
      ensures n.pedidos[p].deliveryAsignadoId != Some(empleadoId)
    {
    }
  }

  // ---------- confirmar_pedido ----------

  /** What `confirmar_pedido` does: only a PENDIENTE order becomes CONFIRMADO, stamped now. */
  function PedidoConfirmado(t: Tablas, ses: Sesion, pedidoId: int, ahora: int): (r: Result<Tablas, Fallo>)
    ensures !EsAdmin(ses) ==> r == Err(Prohibido)
    ensures EsAdmin(ses) && pedidoId !in t.pedidos ==> r == Err(PedidoNoEncontrado)
    ensures (EsAdmin(ses) && pedidoId in t.pedidos && t.pedidos[pedidoId].estado != Pendiente)
            ==> r == Err(EstadoIncorrecto(t.pedidos[pedidoId].estado))
    ensures r.Ok? <==> EsAdmin(ses) && pedidoId in t.pedidos && t.pedidos[pedidoId].estado == Pendiente
    ensures r.Ok? ==> SoloPedido(t, r.value, pedidoId)
    ensures r.Ok? ==> var p := t.pedidos[pedidoId];
                      var q := r.value.pedidos[pedidoId];
                      && q.estado == Confirmado && q.fechaConfirmado == Some(ahora)
                      && MismosDatos(p, q) && q.deliveryAsignadoId == p.deliveryAsignadoId && q.estaPagado == p.estaPagado
                      && (forall e :: Sellado(e) && e != Confirmado ==> FechaDe(q, e) == FechaDe(p, e))
  {
    if !EsAdmin(ses) then Err(Prohibido)
    else if pedidoId !in t.pedidos then Err(PedidoNoEncontrado)
    else if t.pedidos[pedidoId].estado != Pendiente then Err(EstadoIncorrecto(t.pedidos[pedidoId].estado))
    else
      var p := t.pedidos[pedidoId];
      Ok(t.(pedidos := t.pedidos[pedidoId := p.(estado := Confirmado, fechaConfirmado := Some(ahora))]))
  }

  /** An order is confirmed once: the second call finds it CONFIRMADO. */
  lemma ConfirmarDosVeces(t: Tablas, ses: Sesion, pedidoId: int, ahora: int, despues: int)
    requires PedidoConfirmado(t, ses, pedidoId, ahora).Ok?
    ensures PedidoConfirmado(PedidoConfirmado(t, ses, pedidoId, ahora).value, ses, pedidoId, despues)
            == Err(EstadoIncorrecto(Confirmado))
  {
  }

  /** Confirming an order keeps the tables valid. */
  lemma ConfirmadoValida(t: Tablas, ses: Sesion, pedidoId: int, ahora: int)
    requires TablasValidas(t) && PedidoConfirmado(t, ses, pedidoId, ahora).Ok?
    ensures TablasValidas(PedidoConfirmado(t, ses, pedidoId, ahora).value)
  {
    CambioValida(t, PedidoConfirmado(t, ses, pedidoId, ahora).value, pedidoId);
  }

  // ---------- reasignar_delivery ----------

  /**
   * What `reasignar_delivery` does: the order and the new courier must exist
   * and the user must be a courier; only the order's courier changes. A
   * courier of another zone is accepted.
   */
  function DeliveryReasignado(t: Tablas, ses: Sesion, pedidoId: int, nuevoDeliveryId: int): (r: Result<Tablas, Fallo>)
    ensures !EsAdmin(ses) ==> r == Err(Prohibido)
    ensures EsAdmin(ses) && pedidoId !in t.pedidos ==> r == Err(PedidoNoEncontrado)
    ensures EsAdmin(ses) && pedidoId in t.pedidos && nuevoDeliveryId !in t.usuarios ==> r == Err(DeliveryNoEncontrado)
    ensures (EsAdmin(ses) && pedidoId in t.pedidos && nuevoDeliveryId in t.usuarios
             && t.usuarios[nuevoDeliveryId].rolId != RolDelivery) ==> r == Err(NoEsDelivery)
    ensures r.Ok? <==> && EsAdmin(ses) && pedidoId in t.pedidos && nuevoDeliveryId in t.usuarios
                       && t.usuarios[nuevoDeliveryId].rolId == RolDelivery
    ensures r.Ok? ==> SoloPedido(t, r.value, pedidoId)
                      && r.value.pedidos[pedidoId] == t.pedidos[pedidoId].(deliveryAsignadoId := Some(nuevoDeliveryId))
  {
    if !EsAdmin(ses) then Err(Prohibido)
    else if pedidoId !in t.pedidos then Err(PedidoNoEncontrado)
    else if nuevoDeliveryId !in t.usuarios then Err(DeliveryNoEncontrado)
    else if t.usuarios[nuevoDeliveryId].rolId != RolDelivery then Err(NoEsDelivery)
    else Ok(t.(pedidos := t.pedidos[pedidoId := t.pedidos[pedidoId].(deliveryAsignadoId := Some(nuevoDeliveryId))]))
  }

  /** Reassigning to the courier already assigned leaves the tables as they were. */
  lemma ReasignarMismo(t: Tablas, ses: Sesion, pedidoId: int, nuevoDeliveryId: int)
    requires DeliveryReasignado(t, ses, pedidoId, nuevoDeliveryId).Ok?
    requires t.pedidos[pedidoId].deliveryAsignadoId == Some(nuevoDeliveryId)
    ensures DeliveryReasignado(t, ses, pedidoId, nuevoDeliveryId).value == t
  {
    assert t.pedidos[pedidoId := t.pedidos[pedidoId]] == t.pedidos;
  }

  /** Reassigning a courier keeps the tables valid. */
  lemma ReasignadoValida(t: Tablas, ses: Sesion, pedidoId: int, nuevoDeliveryId: int)
    requires TablasValidas(t) && DeliveryReasignado(t, ses, pedidoId, nuevoDeliveryId).Ok?
    ensures TablasValidas(DeliveryReasignado(t, ses, pedidoId, nuevoDeliveryId).value)
  {
    CambioValida(t, DeliveryReasignado(t, ses, pedidoId, nuevoDeliveryId).value, pedidoId);
  }

  // ---------- actualizar_estado_pedido ----------

  /**
   * What `actualizar_estado_pedido` does: any state may be forced, from any
   * state; the lines give their units back when the order newly becomes
   * CANCELADO; the new state's date is stamped even when the state is the same.
   */
  function EstadoActualizado(t: Tablas, ses: Sesion, pedidoId: int, nuevo: Estado, ahora: int): (r: Result<Tablas, Fallo>)
    ensures !EsAdmin(ses) ==> r == Err(Prohibido)
    ensures EsAdmin(ses) && pedidoId !in t.pedidos ==> r == Err(PedidoNoEncontrado)
    ensures r.Ok? <==> EsAdmin(ses) && pedidoId in t.pedidos
    ensures r.Ok? ==> var p := t.pedidos[pedidoId];
                      var repone := nuevo == Cancelado && p.estado != Cancelado;
                      && SoloPedido(t, r.value.(menus := t.menus), pedidoId)
                      && r.value.pedidos[pedidoId] == Estampado(p, nuevo, ahora)
                      && (repone ==> r.value.menus == Repuesto(t, pedidoId).menus)
                      && (!repone ==> r.value.menus == t.menus)
  {
    if !EsAdmin(ses) then Err(Prohibido)
    else if pedidoId !in t.pedidos then Err(PedidoNoEncontrado)
    else
      var p := t.pedidos[pedidoId];
      var s := if nuevo == Cancelado && p.estado != Cancelado then Repuesto(t, pedidoId) else t;
      Ok(s.(pedidos := s.pedidos[pedidoId := Estampado(p, nuevo, ahora)]))
  }

  /** Forcing a state keeps the tables valid. */
  lemma EstadoActualizadoValida(t: Tablas, ses: Sesion, pedidoId: int, nuevo: Estado, ahora: int)
    requires TablasValidas(t) && EstadoActualizado(t, ses, pedidoId, nuevo, ahora).Ok?
    ensures TablasValidas(EstadoActualizado(t, ses, pedidoId, nuevo, ahora).value)
  {
    CambioValida(t, EstadoActualizado(t, ses, pedidoId, nuevo, ahora).value, pedidoId);
  }

  /** Forcing CONFIRMADO on a PENDIENTE order is exactly `confirmar_pedido`. */
  lemma ConfirmarComoEstado(t: Tablas, ses: Sesion, pedidoId: int, ahora: int)
    requires pedidoId in t.pedidos ==> t.pedidos[pedidoId].estado == Pendiente
    ensures PedidoConfirmado(t, ses, pedidoId, ahora) == EstadoActualizado(t, ses, pedidoId, Confirmado, ahora)
  {
    if EsAdmin(ses) && pedidoId in t.pedidos {
      var p := t.pedidos[pedidoId];
      assert Estampado(p, Confirmado, ahora) == p.(estado := Confirmado, fechaConfirmado := Some(ahora));
    }
  }

  /** Forcing CANCELADO twice gives the units back once. */
  lemma CancelarForzadoDosVeces(t: Tablas, ses: Sesion, pedidoId: int, ahora: int, despues: int)
    requires EstadoActualizado(t, ses, pedidoId, Cancelado, ahora).Ok?
    ensures var n := EstadoActualizado(t, ses, pedidoId, Cancelado, ahora).value;
      EstadoActualizado(n, ses, pedidoId, Cancelado, despues) == Ok(n)
  {
    var n := EstadoActualizado(t, ses, pedidoId, Cancelado, ahora).value;
    var q := n.pedidos[pedidoId];
    assert Estampado(q, Cancelado, despues) == q;
    assert n.pedidos[pedidoId := q] == n.pedidos;
  }

  /** Forcing the state an order already has still restamps its date. */
  lemma MismoEstadoReestampa(t: Tablas, ses: Sesion, pedidoId: int, ahora: int)
    requires EsAdmin(ses) && pedidoId in t.pedidos
    requires t.pedidos[pedidoId].estado == EnReparto && t.pedidos[pedidoId].fechaEnReparto != Some(ahora)
    ensures var r := EstadoActualizado(t, ses, pedidoId, EnReparto, ahora);
      r.Ok? && r.value.pedidos[pedidoId].estado == EnReparto && r.value != t
  {
    var r := EstadoActualizado(t, ses, pedidoId, EnReparto, ahora);
    assert r.value.pedidos[pedidoId].fechaEnReparto == Some(ahora);
  }

  // ---------- cancelar_pedido_admin ----------

  /**
   * What `cancelar_pedido_admin` does: an order not yet CANCELADO nor ENTREGADO
   * gives its lines' units back and becomes CANCELADO; it stays stored.
   */
  function CanceladoAdmin(t: Tablas, ses: Sesion, pedidoId: int): (r: Result<Tablas, Fallo>)
    ensures !EsAdmin(ses) ==> r == Err(Prohibido)
    ensures EsAdmin(ses) && pedidoId !in t.pedidos ==> r == Err(PedidoNoEncontrado)
    ensures EsAdmin(ses) && pedidoId in t.pedidos && t.pedidos[pedidoId].estado == Cancelado ==> r == Err(YaCancelado)
    ensures EsAdmin(ses) && pedidoId in t.pedidos && t.pedidos[pedidoId].estado == Entregado ==> r == Err(YaEntregado)
    ensures r.Ok? <==> && EsAdmin(ses) && pedidoId in t.pedidos
                       && t.pedidos[pedidoId].estado != Cancelado && t.pedidos[pedidoId].estado != Entregado
    ensures r.Ok? ==> && SoloPedido(t, r.value.(menus := t.menus), pedidoId)
                      && r.value.pedidos[pedidoId] == t.pedidos[pedidoId].(estado := Cancelado)
                      && r.value.menus == Repuesto(t, pedidoId).menus
  {
    if !EsAdmin(ses) then Err(Prohibido)
    else if pedidoId !in t.pedidos then Err(PedidoNoEncontrado)
    else if t.pedidos[pedidoId].estado == Cancelado then Err(YaCancelado)
    else if t.pedidos[pedidoId].estado == Entregado then Err(YaEntregado)
    else
      var s := Repuesto(t, pedidoId);
      Ok(s.(pedidos := s.pedidos[pedidoId := t.pedidos[pedidoId].(estado := Cancelado)]))
  }

  /** A cancelled order cannot be cancelled again, so its units come back once. */
  lemma CancelarAdminDosVeces(t: Tablas, ses: Sesion, pedidoId: int)
    requires CanceladoAdmin(t, ses, pedidoId).Ok?
    ensures CanceladoAdmin(CanceladoAdmin(t, ses, pedidoId).value, ses, pedidoId) == Err(YaCancelado)
  {
  }

  /** While an order is neither CANCELADO nor ENTREGADO, forcing CANCELADO and cancelling agree. */
  lemma CancelarComoEstado(t: Tablas, ses: Sesion, pedidoId: int, ahora: int)
    requires pedidoId in t.pedidos ==> t.pedidos[pedidoId].estado != Cancelado && t.pedidos[pedidoId].estado != Entregado
    ensures CanceladoAdmin(t, ses, pedidoId) == EstadoActualizado(t, ses, pedidoId, Cancelado, ahora)
  {
    if EsAdmin(ses) && pedidoId in t.pedidos {
      var p := t.pedidos[pedidoId];
      assert Estampado(p, Cancelado, ahora) == p.(estado := Cancelado);
    }
  }

  /** A delivered order cannot be cancelled, yet forcing CANCELADO on it gives its units back. */
  lemma EntregadoForzadoRepone(t: Tablas, ses: Sesion, pedidoId: int, ahora: int)
    requires EsAdmin(ses) && pedidoId in t.pedidos && t.pedidos[pedidoId].estado == Entregado
    ensures CanceladoAdmin(t, ses, pedidoId) == Err(YaEntregado)
    ensures var r := EstadoActualizado(t, ses, pedidoId, Cancelado, ahora);
      r.Ok? && r.value.pedidos[pedidoId].estado == Cancelado && r.value.menus == Repuesto(t, pedidoId).menus
  {
  }

  /** Cancelling keeps the tables valid. */
  lemma CanceladoAdminValida(t: Tablas, ses: Sesion, pedidoId: int)
    requires TablasValidas(t) && CanceladoAdmin(t, ses, pedidoId).Ok?
    ensures TablasValidas(CanceladoAdmin(t, ses, pedidoId).value)
  {
    CambioValida(t, CanceladoAdmin(t, ses, pedidoId).value, pedidoId);
  }

  // ---------- the endpoints ----------

  /** `actualizar_menu_dia`: answers with the updated menu. */
  method ActualizarMenuDia(db: BaseDatos, ses: Sesion, menuId: int, req: ActualizarMenuRequest) returns (r: Result<MenuDia, Fallo>)
    requires db.Valid()
    modifies db
    ensures var s := MenuActualizado(old(db.Estado()), ses, menuId, req);
      && (s.Err? ==> r == Err(s.error) && db.Estado() == old(db.Estado()))
      && (s.Ok? ==> db.Estado() == s.value && r == Ok(db.menus[menuId]))
    ensures db.Valid()
  {
    if !ActualizarMenuValido(req) {
      return Err(ParametroInvalido);
    }
    if !EsAdmin(ses) {
      return Err(Prohibido);
    }
    if menuId !in db.menus {
      return Err(MenuInexistente);
    }
    var menu := db.menus[menuId];
    if req.cantidadDisponible.Some? {
      menu := menu.(cantidadDisponible := req.cantidadDisponible.value);
    }
    if req.precioMenu.Some? {
      menu := menu.(precioMenu := req.precioMenu.value);
    }
    if req.imagenUrl.Some? {
      menu := menu.(imagenUrl := req.imagenUrl.value);
    }
    if req.publicado.Some? {
      menu := menu.(publicado := req.publicado.value);
    }
    db.menus := db.menus[menuId := menu];
    return Ok(menu);
  }

  /** `desactivar_empleado`: answers with the removed user's id. */
  method DesactivarEmpleado(db: BaseDatos, ses: Sesion, empleadoId: int) returns (r: Result<int, Fallo>)
    requires db.Valid()
    modifies db
    ensures var s := EmpleadoDesactivado(old(db.Estado()), ses, empleadoId);
      && (s.Err? ==> r == Err(s.error) && db.Estado() == old(db.Estado()))
      && (s.Ok? ==> db.Estado() == s.value && r == Ok(empleadoId))
    ensures db.Valid()
  {
    if !EsAdmin(ses) {
      return Err(Prohibido);
    }
    if empleadoId !in db.usuarios {
      return Err(EmpleadoNoEncontrado);
    }
    if empleadoId == ses.usuarioId {
      return Err(AutoEliminacion);
    }
    var empleado := db.usuarios[empleadoId];
    if empleado.rolId !in {RolAdmin, RolCocina, RolDelivery} {
      return Err(NoEsEmpleado);
    }
    if empleado.rolId == RolDelivery && ConPedidosActivos(db.pedidos, empleadoId) {
      return Err(DeliveryConPedidosActivos);
    }
    db.usuarios := db.usuarios - {empleadoId};
    return Ok(empleadoId);
  }

  /** `confirmar_pedido`: answers with the stored order. */
  method ConfirmarPedido(db: BaseDatos, ses: Sesion, pedidoId: int, ahora: int) returns (r: Result<Pedido, Fallo>)
    requires db.Valid()
    modifies db
    ensures var s := PedidoConfirmado(old(db.Estado()), ses, pedidoId, ahora);
      && (s.Err? ==> r == Err(s.error) && db.Estado() == old(db.Estado()))
      && (s.Ok? ==> db.Estado() == s.value && r == Ok(db.pedidos[pedidoId]))
    ensures db.Valid()
  {
    ghost var t := db.Estado();
    if PedidoConfirmado(t, ses, pedidoId, ahora).Ok? {
      ConfirmadoValida(t, ses, pedidoId, ahora);
    }
    if !EsAdmin(ses) {
      return Err(Prohibido);
    }
    if pedidoId !in db.pedidos {
      return Err(PedidoNoEncontrado);
    }
    var pedido := db.pedidos[pedidoId];
    if pedido.estado != Pendiente {
      return Err(EstadoIncorrecto(pedido.estado));
    }
    pedido := pedido.(estado := Confirmado, fechaConfirmado := Some(ahora));
    db.pedidos := db.pedidos[pedidoId := pedido];
    return Ok(pedido);
  }

  /** `reasignar_delivery`: answers with the stored order. */
  method ReasignarDelivery(db: BaseDatos, ses: Sesion, pedidoId: int, nuevoDeliveryId: int) returns (r: Result<Pedido, Fallo>)
    requires db.Valid()
    modifies db
    ensures var s := DeliveryReasignado(old(db.Estado()), ses, pedidoId, nuevoDeliveryId);
      && (s.Err? ==> r == Err(s.error) && db.Estado() == old(db.Estado()))
      && (s.Ok? ==> db.Estado() == s.value && r == Ok(db.pedidos[pedidoId]))
    ensures db.Valid()
  {
    ghost var t := db.Estado();
    if DeliveryReasignado(t, ses, pedidoId, nuevoDeliveryId).Ok? {
      ReasignadoValida(t, ses, pedidoId, nuevoDeliveryId);
    }
    if !EsAdmin(ses) {
      return Err(Prohibido);
    }
    if pedidoId !in db.pedidos {
      return Err(PedidoNoEncontrado);
    }
    if nuevoDeliveryId !in db.usuarios {
      return Err(DeliveryNoEncontrado);
    }
    if db.usuarios[nuevoDeliveryId].rolId != RolDelivery {
      return Err(NoEsDelivery);
    }
    var pedido := db.pedidos[pedidoId].(deliveryAsignadoId := Some(nuevoDeliveryId));
    db.pedidos := db.pedidos[pedidoId := pedido];
    return Ok(pedido);
  }

  /** `actualizar_estado_pedido`: answers with the stored order. */
  method ActualizarEstadoPedido(db: BaseDatos, ses: Sesion, pedidoId: int, nuevo: Estado, ahora: int)
    returns (r: Result<Pedido, Fallo>)
    requires db.Valid()
    modifies db
    ensures var s := EstadoActualizado(old(db.Estado()), ses, pedidoId, nuevo, ahora);
      && (s.Err? ==> r == Err(s.error) && db.Estado() == old(db.Estado()))
      && (s.Ok? ==> db.Estado() == s.value && r == Ok(db.pedidos[pedidoId]))
    ensures db.Valid()
  {
    ghost var t := db.Estado();
    if EstadoActualizado(t, ses, pedidoId, nuevo, ahora).Ok? {
      EstadoActualizadoValida(t, ses, pedidoId, nuevo, ahora);
    }
    if !EsAdmin(ses) {
      return Err(Prohibido);
    }
    if pedidoId !in db.pedidos {
      return Err(PedidoNoEncontrado);
    }
    var pedido := db.pedidos[pedidoId];
    if pedido.estado != nuevo && nuevo == Cancelado {
      db.ReponerItems(ItemsDe(db.items, pedidoId));
    }
    if nuevo == Confirmado {
      pedido := pedido.(fechaConfirmado := Some(ahora));
    } else if nuevo == ListoParaEntrega {
      pedido := pedido.(fechaListoCocina := Some(ahora));
    } else if nuevo == EnReparto {
      pedido := pedido.(fechaEnReparto := Some(ahora));
    } else if nuevo == Entregado {
      pedido := pedido.(fechaEntrega := Some(ahora));
    }
    pedido := pedido.(estado := nuevo);
    db.pedidos := db.pedidos[pedidoId := pedido];
    return Ok(pedido);
  }

  /** `cancelar_pedido_admin`: answers with the cancelled order's id. */
  method CancelarPedidoAdmin(db: BaseDatos, ses: Sesion, pedidoId: int) returns (r: Result<int, Fallo>)
    requires db.Valid()
    modifies db
    ensures var s := CanceladoAdmin(old(db.Estado()), ses, pedidoId);
      && (s.Err? ==> r == Err(s.error) && db.Estado() == old(db.Estado()))
      && (s.Ok? ==> db.Estado() == s.value && r == Ok(pedidoId))
    ensures db.Valid()
  {
    ghost var t := db.Estado();
    if CanceladoAdmin(t, ses, pedidoId).Ok? {
      CanceladoAdminValida(t, ses, pedidoId);
    }
    if !EsAdmin(ses) {
      return Err(Prohibido);
    }
    if pedidoId !in db.pedidos {
      return Err(PedidoNoEncontrado);
    }
    var pedido := db.pedidos[pedidoId];
    if pedido.estado == Cancelado {
      return Err(YaCancelado);
    }
    if pedido.estado == Entregado {
      return Err(YaEntregado);
    }
    db.ReponerItems(ItemsDe(db.items, pedidoId));
    db.pedidos := db.pedidos[pedidoId := pedido.(estado := Cancelado)];
    return Ok(pedidoId);
  }
}
