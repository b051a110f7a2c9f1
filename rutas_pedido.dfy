/**
 * The customer's order endpoints: `crear_pedido` (validate the zone and every
 * line, total, token, courier, lines, exclusions, stock) and `cancelar_pedido`
 * (owner only, PENDIENTE only, restock, delete).
 */
module RutasPedido {
  import opened Base
  import opened Enums
  import opened Errores
  import opened Orden
  import opened Modelos
  import opened Esquemas
  import opened Stock
  import opened Tokens
  import opened Notificaciones
  import opened Publicadores
  import opened Tienda

  /**
   * `query(Usuario).filter(rol_id == 3, zona_reparto_id == zona).first()`:
   * a courier of the order's zone (the lowest id, a choice for the
   * unordered query), or none when the zone has no courier.
   */
  function Repartidor(usuarios: map<int, Usuario>, zonaId: int): (r: Option<int>)
    ensures r.Some? ==> r.value in usuarios && usuarios[r.value].rolId == RolDelivery
                        && usuarios[r.value].zonaRepartoId == Some(zonaId)
    ensures r.None? <==> forall u :: u in usuarios ==>
                           !(usuarios[u].rolId == RolDelivery && usuarios[u].zonaRepartoId == Some(zonaId))
  {
    var c := set u | u in usuarios && usuarios[u].rolId == RolDelivery && usuarios[u].zonaRepartoId == Some(zonaId);
    if c == {} then
      assert forall u :: u in usuarios ==>
               !(usuarios[u].rolId == RolDelivery && usuarios[u].zonaRepartoId == Some(zonaId)) by {
        forall u | u in usuarios
          ensures !(usuarios[u].rolId == RolDelivery && usuarios[u].zonaRepartoId == Some(zonaId))
        {
          assert u !in c;
        }
      }
      None
    else Some(Minimo(c))
  }

  /** The events of a new order: the kitchen and the administrators, then the courier when one was found. */
  function AvisosDeAlta(pedidoId: int, token: string, cliente: string, itemsCount: int, total: int,
                        delivery: Option<int>, direccion: Option<string>): seq<Aviso>
  {
    NuevoPedido(pedidoId, token, cliente, itemsCount, total)
      + (if delivery.Some? then DeliveryAsignado(pedidoId, token, delivery.value, direccion) else [])
  }

  /** The order `p` stored under the next id, with its lines, their exclusions, and the stock they take. */
  function Insertado(t: Tablas, p: Pedido, l: seq<ItemPedidoRequest>): Tablas
    requires MenusExisten(t.menus, l)
  {
    var id := t.siguientePedido;
    t.(pedidos := t.pedidos[id := p],
       siguientePedido := id + 1,
       items := t.items + NuevosItems(id, t.siguienteItem, t.menus, l),
       exclusiones := t.exclusiones + NuevasExclusiones(t.siguienteItem, l),
       menus := Descontar(t.menus, l),
       siguienteItem := t.siguienteItem + |l|)
  }

  /** The tables and events once every check passed. */
  function Alta(t: Tablas, ses: Sesion, req: CrearPedidoRequest, total: int, token: string, ahora: int): Efecto
    requires MenusExisten(t.menus, req.items)
  {
    var id := t.siguientePedido;
    var delivery := Repartidor(t.usuarios, req.zonaId);
    var p := PedidoInicial(ses.usuarioId, req.zonaId, req.googleMapsLink, req.direccionReferencia,
                           token, total, req.metodoPago, delivery, ahora);
    Efecto(Insertado(t, p, req.items), AvisosDeAlta(id, token, ses.nombreCompleto, |req.items|, total, delivery, req.direccionReferencia))
  }

  /**
   * What `crear_pedido` does: a malformed cart is refused by the request
   * validation; then the zone, then each line in order, then the token;
   * if all pass, the order is stored under the next id.
   */
  function PedidoCreado(t: Tablas, ses: Sesion, req: CrearPedidoRequest, sorteos: seq<seq<nat>>, ahora: int)
    : (r: Result<Efecto, Fallo>)
    requires SorteosValidos(sorteos, LongitudPorDefecto)
    ensures !CarritoValido(req) ==> r == Err(ParametroInvalido)
    ensures CarritoValido(req) && req.zonaId !in t.zonas ==> r == Err(ZonaNoEncontrada)
    ensures CarritoValido(req) && req.zonaId in t.zonas && Validar(t.menus, req.items).Err? ==>
              r == Err(Validar(t.menus, req.items).error)
    ensures r.Ok? <==> CarritoValido(req) && req.zonaId in t.zonas
                       && (forall k :: 0 <= k < |req.items| ==> LineaValida(t.menus, req.items[k]))
                       && TokenUnico(TokensDe(t.pedidos), sorteos, LongitudPorDefecto).Ok?
    ensures r.Ok? ==> MenusExisten(t.menus, req.items)
  {
    if !CarritoValido(req) then Err(ParametroInvalido)
    else if req.zonaId !in t.zonas then Err(ZonaNoEncontrada)
    else match Validar(t.menus, req.items)
      case Err(f) => Err(f)
      case Ok(total) =>
        match TokenUnico(TokensDe(t.pedidos), sorteos, LongitudPorDefecto)
        case Err(f) => Err(f)
        case Ok(token) => Ok(Alta(t, ses, req, total, token, ahora))
  }

  /** On success, the outcome is the stored order with the validated total and the first fresh token. */
  lemma CreadoEsAlta(t: Tablas, ses: Sesion, req: CrearPedidoRequest, sorteos: seq<seq<nat>>, ahora: int)
    requires SorteosValidos(sorteos, LongitudPorDefecto)
    requires PedidoCreado(t, ses, req, sorteos, ahora).Ok?
    ensures MenusExisten(t.menus, req.items)
    ensures TokenUnico(TokensDe(t.pedidos), sorteos, LongitudPorDefecto).Ok?
    ensures PedidoCreado(t, ses, req, sorteos, ahora)
            == Ok(Alta(t, ses, req, Stock.Importe(t.menus, req.items),
                       TokenUnico(TokensDe(t.pedidos), sorteos, LongitudPorDefecto).value, ahora))
    ensures var n := PedidoCreado(t, ses, req, sorteos, ahora).value.tablas;
      n == Insertado(t, n.pedidos[t.siguientePedido], req.items)
  {
  }

  /** The new order's lines are the request's, and removing them leaves the lines there were. */
  lemma InsertadoItems(t: Tablas, p: Pedido, l: seq<ItemPedidoRequest>)
    requires MenusExisten(t.menus, l) && IdsPrevios(t)
    ensures var n := Insertado(t, p, l);
      && n.items == t.items + NuevosItems(t.siguientePedido, t.siguienteItem, t.menus, l)
      && ItemsDe(n.items, t.siguientePedido) == NuevosItems(t.siguientePedido, t.siguienteItem, t.menus, l)
      && SinPedido(n.items, t.siguientePedido) == t.items
  {
    var id := t.siguientePedido;
    var its := NuevosItems(id, t.siguienteItem, t.menus, l);
    ItemsDeConcat(t.items, its, id);
    SinPedidoConcat(t.items, its, id);
    ItemsAjenos(t.items, id);
    ItemsPropios(its, id);
  }

  /** Each new line carries its own exclusions. */
  lemma InsertadoExclusiones(t: Tablas, p: Pedido, l: seq<ItemPedidoRequest>)
    requires MenusExisten(t.menus, l)
    requires forall j :: 0 <= j < |t.exclusiones| ==> t.exclusiones[j].itemId < t.siguienteItem
    ensures forall k :: 0 <= k < |l| ==>
      DeItem(Insertado(t, p, l).exclusiones, t.siguienteItem + k) == ExclusionesDe(t.siguienteItem + k, l[k].exclusiones)
  {
    forall k | 0 <= k < |l|
      ensures DeItem(t.exclusiones + NuevasExclusiones(t.siguienteItem, l), t.siguienteItem + k)
              == ExclusionesDe(t.siguienteItem + k, l[k].exclusiones)
    {
      ExclusionesNuevasPropias(t.exclusiones, t.siguienteItem, l, k);
    }
  }

  /** Removing the new lines' exclusions leaves the exclusions there were. */
  lemma InsertadoSinExclusiones(t: Tablas, p: Pedido, l: seq<ItemPedidoRequest>)
    requires MenusExisten(t.menus, l)
    requires forall j :: 0 <= j < |t.exclusiones| ==> t.exclusiones[j].itemId < t.siguienteItem
    ensures ExclusionesFuera(Insertado(t, p, l).exclusiones, IdsDe(NuevosItems(t.siguientePedido, t.siguienteItem, t.menus, l)))
            == t.exclusiones
  {
    ExclusionesNuevasFuera(t.exclusiones, t.siguientePedido, t.siguienteItem, t.menus, l);
  }

  /** The stored order: the caller's, PENDIENTE, unpaid, no timestamps but its creation, a fresh token, the lines' total. */
  lemma CreadoPedido(t: Tablas, ses: Sesion, req: CrearPedidoRequest, sorteos: seq<seq<nat>>, ahora: int)
    requires SorteosValidos(sorteos, LongitudPorDefecto) && TablasValidas(t)
    requires PedidoCreado(t, ses, req, sorteos, ahora).Ok?
    ensures var n := PedidoCreado(t, ses, req, sorteos, ahora).value.tablas;
      && t.siguientePedido !in t.pedidos && t.siguientePedido in n.pedidos
      && n.pedidos == t.pedidos[t.siguientePedido := n.pedidos[t.siguientePedido]]
      && var p := n.pedidos[t.siguientePedido];
      && p.usuarioId == ses.usuarioId && p.zonaId == req.zonaId && p.metodoPago == req.metodoPago
      && p.estado == Pendiente && !p.estaPagado && p.fechaPedido == ahora
      && p.fechaConfirmado.None? && p.fechaListoCocina.None? && p.fechaEnReparto.None? && p.fechaEntrega.None?
      && p.totalPedido == Stock.Importe(t.menus, req.items)
      && |p.tokenRecoger| == LongitudPorDefecto && EnAlfabeto(p.tokenRecoger) && p.tokenRecoger !in TokensDe(t.pedidos)
      && p.deliveryAsignadoId == Repartidor(t.usuarios, req.zonaId)
  {
    CreadoEsAlta(t, ses, req, sorteos, ahora);
  }

  /**
   * The courier, if any, is a user with role 3 of the order's zone; the field
   * stays empty exactly when the zone has no courier.
   */
  lemma CreadoRepartidor(t: Tablas, ses: Sesion, req: CrearPedidoRequest, sorteos: seq<seq<nat>>, ahora: int)
    requires SorteosValidos(sorteos, LongitudPorDefecto)
    requires PedidoCreado(t, ses, req, sorteos, ahora).Ok?
    ensures var d := PedidoCreado(t, ses, req, sorteos, ahora).value.tablas.pedidos[t.siguientePedido].deliveryAsignadoId;
      && (d.Some? ==> d.value in t.usuarios && t.usuarios[d.value].rolId == RolDelivery
                      && t.usuarios[d.value].zonaRepartoId == Some(req.zonaId))
      && (d.None? <==> forall u :: u in t.usuarios ==>
                         !(t.usuarios[u].rolId == RolDelivery && t.usuarios[u].zonaRepartoId == Some(req.zonaId)))
  {
    CreadoEsAlta(t, ses, req, sorteos, ahora);
  }

  /**
   * The order's lines are exactly one per request line, in order, each with its
   * menu's current price; the order total is what they add up to; each line's
   * exclusions are one row per requested ingredient.
   */
  lemma CreadoLineas(t: Tablas, ses: Sesion, req: CrearPedidoRequest, sorteos: seq<seq<nat>>, ahora: int)
    requires SorteosValidos(sorteos, LongitudPorDefecto) && TablasValidas(t)
    requires PedidoCreado(t, ses, req, sorteos, ahora).Ok?
    ensures MenusExisten(t.menus, req.items)
    ensures var n := PedidoCreado(t, ses, req, sorteos, ahora).value.tablas;
      && ItemsDe(n.items, t.siguientePedido) == NuevosItems(t.siguientePedido, t.siguienteItem, t.menus, req.items)
      && n.pedidos[t.siguientePedido].totalPedido == ImporteItems(ItemsDe(n.items, t.siguientePedido))
      && forall k :: 0 <= k < |req.items| ==>
           DeItem(n.exclusiones, t.siguienteItem + k) == ExclusionesDe(t.siguienteItem + k, req.items[k].exclusiones)
  {
    CreadoEsAlta(t, ses, req, sorteos, ahora);
    var n := PedidoCreado(t, ses, req, sorteos, ahora).value.tablas;
    var p := n.pedidos[t.siguientePedido];
    assert p.totalPedido == Stock.Importe(t.menus, req.items);
    InsertadoLineas(t, p, req.items);
  }

  /** The stored lines and exclusions of an inserted order, and its total against them. */
  lemma InsertadoLineas(t: Tablas, p: Pedido, l: seq<ItemPedidoRequest>)
    requires MenusExisten(t.menus, l) && IdsPrevios(t)
    requires p.totalPedido == Stock.Importe(t.menus, l)
    ensures var n := Insertado(t, p, l);
      && ItemsDe(n.items, t.siguientePedido) == NuevosItems(t.siguientePedido, t.siguienteItem, t.menus, l)
      && n.pedidos[t.siguientePedido].totalPedido == ImporteItems(ItemsDe(n.items, t.siguientePedido))
      && forall k :: 0 <= k < |l| ==>
           DeItem(n.exclusiones, t.siguienteItem + k) == ExclusionesDe(t.siguienteItem + k, l[k].exclusiones)
  {
    var n := Insertado(t, p, l);
    assert n.pedidos[t.siguientePedido] == p;
    InsertadoItems(t, p, l);
    ImporteDeItems(t.siguientePedido, t.siguienteItem, t.menus, l);
    InsertadoExclusiones(t, p, l);
  }

  /** Each menu loses exactly the units the cart asked of it; no other field of any menu changes. */
  lemma CreadoStock(t: Tablas, ses: Sesion, req: CrearPedidoRequest, sorteos: seq<seq<nat>>, ahora: int)
    requires SorteosValidos(sorteos, LongitudPorDefecto)
    requires PedidoCreado(t, ses, req, sorteos, ahora).Ok?
    ensures var n := PedidoCreado(t, ses, req, sorteos, ahora).value.tablas;
      && n.menus.Keys == t.menus.Keys
      && forall m :: m in t.menus ==>
           n.menus[m] == t.menus[m].(cantidadDisponible := t.menus[m].cantidadDisponible - Unidades(req.items, m))
  {
    CreadoEsAlta(t, ses, req, sorteos, ahora);
  }

  /** With distinct menus in the cart, no menu whose stock was non-negative goes below zero. */
  lemma CreadoStockNoNegativo(t: Tablas, ses: Sesion, req: CrearPedidoRequest, sorteos: seq<seq<nat>>, ahora: int)
    requires SorteosValidos(sorteos, LongitudPorDefecto)
    requires PedidoCreado(t, ses, req, sorteos, ahora).Ok?
    requires MenusDistintos(req.items)
    ensures var n := PedidoCreado(t, ses, req, sorteos, ahora).value.tablas;
      forall m :: m in t.menus && t.menus[m].cantidadDisponible >= 0 ==> n.menus[m].cantidadDisponible >= 0
  {
    CreadoEsAlta(t, ses, req, sorteos, ahora);
    DescontarNoNegativo(t.menus, req.items);
  }

  /**
   * The order is announced to the kitchen and then to the administrators as
   * broadcasts, then to its courier under role 3 when one was assigned.
   */
  lemma CreadoAvisos(t: Tablas, ses: Sesion, req: CrearPedidoRequest, sorteos: seq<seq<nat>>, ahora: int)
    requires SorteosValidos(sorteos, LongitudPorDefecto)
    requires PedidoCreado(t, ses, req, sorteos, ahora).Ok?
    ensures var e := PedidoCreado(t, ses, req, sorteos, ahora).value;
      var d := e.tablas.pedidos[t.siguientePedido].deliveryAsignadoId;
      && |e.avisos| == (if d.Some? then 3 else 2)
      && e.avisos[0].destinatarioRol == RolCocina && Difusion(e.avisos[0]) && e.avisos[0].tipo == NuevoPedidoTipo
      && e.avisos[1].destinatarioRol == RolAdmin && Difusion(e.avisos[1]) && e.avisos[1].tipo == NuevoPedidoTipo
      && (d.Some? ==> e.avisos[2].destinatarioRol == RolDelivery && e.avisos[2].destinatarioId == d
                      && e.avisos[2].tipo == PedidoAsignadoTipo)
  {
    CreadoEsAlta(t, ses, req, sorteos, ahora);
  }

  /** Creating an order keeps the tables valid: fresh ids, lines of stored orders, unique tokens. */
  lemma CreadoValida(t: Tablas, ses: Sesion, req: CrearPedidoRequest, sorteos: seq<seq<nat>>, ahora: int)
    requires SorteosValidos(sorteos, LongitudPorDefecto) && TablasValidas(t)
    requires PedidoCreado(t, ses, req, sorteos, ahora).Ok?
    ensures TablasValidas(PedidoCreado(t, ses, req, sorteos, ahora).value.tablas)
  {
    CreadoEsAlta(t, ses, req, sorteos, ahora);
    var p := PedidoCreado(t, ses, req, sorteos, ahora).value.tablas.pedidos[t.siguientePedido];
    InsertadoValida(t, p, req.items);
  }

  lemma InsertadoValida(t: Tablas, p: Pedido, l: seq<ItemPedidoRequest>)
    requires MenusExisten(t.menus, l) && TablasValidas(t)
    requires TokenValido(p.tokenRecoger) && p.tokenRecoger !in TokensDe(t.pedidos)
    ensures TablasValidas(Insertado(t, p, l))
  {
    var n := Insertado(t, p, l);
    var id := t.siguientePedido;
    var its := NuevosItems(id, t.siguienteItem, t.menus, l);
    var xs := NuevasExclusiones(t.siguienteItem, l);
    assert n.items == t.items + its;
    assert n.exclusiones == t.exclusiones + xs;
    assert forall k :: 0 <= k < |n.items| ==> n.items[k].itemId < n.siguienteItem && n.items[k].pedidoId in n.pedidos by {
      forall k | 0 <= k < |n.items| ensures n.items[k].itemId < n.siguienteItem && n.items[k].pedidoId in n.pedidos {
        if k >= |t.items| { assert n.items[k] == its[k - |t.items|]; }
      }
    }
    assert forall k :: 0 <= k < |n.exclusiones| ==> n.exclusiones[k].itemId < n.siguienteItem by {
      forall k | 0 <= k < |n.exclusiones| ensures n.exclusiones[k].itemId < n.siguienteItem {
        if k >= |t.exclusiones| { assert n.exclusiones[k] == xs[k - |t.exclusiones|]; }
      }
    }
    assert id !in t.pedidos;
    TokensUnicosAlta(t.pedidos, id, n.pedidos[id]);
  }

  // ---------- cancelar_pedido ----------

  /**
   * What `cancelar_pedido` does: only the owner, only while PENDIENTE; the
   * lines give their units back, then the order and its lines go.
   */
  function PedidoCancelado(t: Tablas, ses: Sesion, pedidoId: int): (r: Result<Efecto, Fallo>)
    ensures pedidoId !in t.pedidos ==> r == Err(PedidoNoEncontrado)
    ensures pedidoId in t.pedidos && t.pedidos[pedidoId].usuarioId != ses.usuarioId ==> r == Err(NoEsDueno)
    ensures (pedidoId in t.pedidos && t.pedidos[pedidoId].usuarioId == ses.usuarioId
             && t.pedidos[pedidoId].estado != Pendiente) ==> r == Err(EstadoNoCancelable(t.pedidos[pedidoId].estado))
    ensures r.Ok? <==> pedidoId in t.pedidos && t.pedidos[pedidoId].usuarioId == ses.usuarioId
                       && t.pedidos[pedidoId].estado == Pendiente
    ensures r.Ok? ==> r.value.avisos == [] && pedidoId !in r.value.tablas.pedidos
                      && r.value.tablas.pedidos == t.pedidos - {pedidoId}
                      && ItemsDe(r.value.tablas.items, pedidoId) == []
    ensures r.Ok? ==> r.value.tablas.menus.Keys == t.menus.Keys
                      && forall m :: m in t.menus ==>
                           r.value.tablas.menus[m].cantidadDisponible
                           == t.menus[m].cantidadDisponible + UnidadesItems(ItemsDe(t.items, pedidoId), m)
  {
    if pedidoId !in t.pedidos then Err(PedidoNoEncontrado)
    else if t.pedidos[pedidoId].usuarioId != ses.usuarioId then Err(NoEsDueno)
    else if t.pedidos[pedidoId].estado != Pendiente then Err(EstadoNoCancelable(t.pedidos[pedidoId].estado))
    else Ok(Efecto(Borrado(t.(menus := Reponer(t.menus, ItemsDe(t.items, pedidoId))), pedidoId), []))
  }

  /** Cancelling keeps the tables valid. */
  lemma CanceladoValida(t: Tablas, ses: Sesion, pedidoId: int)
    requires TablasValidas(t) && PedidoCancelado(t, ses, pedidoId).Ok?
    ensures TablasValidas(PedidoCancelado(t, ses, pedidoId).value.tablas)
  {
    var n := PedidoCancelado(t, ses, pedidoId).value.tablas;
    var its := SinPedido(t.items, pedidoId);
    assert n.items == its;
    assert forall k :: 0 <= k < |its| ==> its[k] in t.items by {
      SinPedidoSubsecuencia(t.items, pedidoId);
    }
    forall k | 0 <= k < |n.exclusiones| ensures n.exclusiones[k].itemId < n.siguienteItem {
      ExclusionesFueraSubsecuencia(t.exclusiones, IdsDe(ItemsDe(t.items, pedidoId)));
      assert n.exclusiones[k] in t.exclusiones;
    }
    TokensUnicosBaja(t.pedidos, pedidoId);
  }

  lemma {:induction false} SinPedidoSubsecuencia(items: seq<PedidoItem>, pedidoId: int)
    ensures forall k :: 0 <= k < |SinPedido(items, pedidoId)| ==> SinPedido(items, pedidoId)[k] in items
  {
    if items != [] {
      var p := items[..|items| - 1];
      SinPedidoSubsecuencia(p, pedidoId);
      assert forall x :: x in p ==> x in items;
    }
  }

  lemma {:induction false} ExclusionesFueraSubsecuencia(xs: seq<ItemExclusion>, ids: set<int>)
    ensures forall k :: 0 <= k < |ExclusionesFuera(xs, ids)| ==> ExclusionesFuera(xs, ids)[k] in xs
  {
    if xs != [] {
      var p := xs[..|xs| - 1];
      ExclusionesFueraSubsecuencia(p, ids);
      assert forall x :: x in p ==> x in xs;
    }
  }

  /** A cancelled order is gone, so cancelling it again fails and gives nothing back twice. */
  lemma CancelarDosVeces(t: Tablas, ses: Sesion, pedidoId: int)
    requires PedidoCancelado(t, ses, pedidoId).Ok?
    ensures PedidoCancelado(PedidoCancelado(t, ses, pedidoId).value.tablas, ses, pedidoId) == Err(PedidoNoEncontrado)
  {
  }

  /**
   * Cancelling an order right after creating it gives every menu its units
   * back and removes the order, its lines and their exclusions: the tables
   * are as before, but for the two id counters.
   */
  lemma CrearYCancelar(t: Tablas, ses: Sesion, req: CrearPedidoRequest, sorteos: seq<seq<nat>>, ahora: int)
    requires SorteosValidos(sorteos, LongitudPorDefecto) && TablasValidas(t)
    requires PedidoCreado(t, ses, req, sorteos, ahora).Ok?
    ensures var n := PedidoCreado(t, ses, req, sorteos, ahora).value.tablas;
      && PedidoCancelado(n, ses, t.siguientePedido).Ok?
      && PedidoCancelado(n, ses, t.siguientePedido).value.tablas
         == t.(siguientePedido := t.siguientePedido + 1, siguienteItem := t.siguienteItem + |req.items|)
  {
    CreadoEsAlta(t, ses, req, sorteos, ahora);
    var p := PedidoCreado(t, ses, req, sorteos, ahora).value.tablas.pedidos[t.siguientePedido];
    InsertadoCancelado(t, ses, p, req.items);
  }

  lemma InsertadoCancelado(t: Tablas, ses: Sesion, p: Pedido, l: seq<ItemPedidoRequest>)
    requires MenusExisten(t.menus, l) && IdsPrevios(t)
    requires p.usuarioId == ses.usuarioId && p.estado == Pendiente
    ensures var n := Insertado(t, p, l);
      && PedidoCancelado(n, ses, t.siguientePedido).Ok?
      && PedidoCancelado(n, ses, t.siguientePedido).value.tablas
         == t.(siguientePedido := t.siguientePedido + 1, siguienteItem := t.siguienteItem + |l|)
  {
    var id := t.siguientePedido;
    var n := Insertado(t, p, l);
    InsertadoItems(t, p, l);
    InsertadoSinExclusiones(t, p, l);
    InsertadoRepuesto(t, p, l);
    assert id !in t.pedidos;
    var c := Borrado(n.(menus := Reponer(n.menus, ItemsDe(n.items, id))), id);
    assert PedidoCancelado(n, ses, id) == Ok(Efecto(c, []));
    assert c.pedidos == t.pedidos;
  }

  /** Giving back the new order's lines restores every menu. */
  lemma InsertadoRepuesto(t: Tablas, p: Pedido, l: seq<ItemPedidoRequest>)
    requires MenusExisten(t.menus, l) && IdsPrevios(t)
    ensures var n := Insertado(t, p, l);
      Reponer(n.menus, ItemsDe(n.items, t.siguientePedido)) == t.menus
  {
    var id := t.siguientePedido;
    var its := NuevosItems(id, t.siguienteItem, t.menus, l);
    InsertadoItems(t, p, l);
    forall m ensures UnidadesItems(its, m) == Unidades(l, m) {
      UnidadesDeNuevos(id, t.siguienteItem, t.menus, l, m);
    }
    ReponerDescontar(t.menus, l, its);
  }

  // ---------- the endpoints ----------

  /** The validation loop, line by line, against the stock before the order. */
  method ValidarLineas(db: BaseDatos, l: seq<ItemPedidoRequest>) returns (r: Result<int, Fallo>)
    ensures r == Validar(db.menus, l)
  {
    var total := 0;
    var i := 0;
    while i < |l|
      invariant 0 <= i <= |l|
      invariant Validar(db.menus, l[..i]) == Ok(total)
    {
      var item := l[i];
      if item.menuDiaId !in db.menus {
        ValidarCorta(db.menus, l, i);
        return Err(MenuNoEncontrado(item.menuDiaId));
      }
      var menu := db.menus[item.menuDiaId];
      if !menu.publicado {
        ValidarCorta(db.menus, l, i);
        return Err(MenuNoPublicado(item.menuDiaId));
      }
      if menu.cantidadDisponible < item.cantidad {
        ValidarCorta(db.menus, l, i);
        return Err(StockInsuficiente(item.menuDiaId, menu.cantidadDisponible));
      }
      assert l[..i + 1][..i] == l[..i];
      total := total + menu.precioMenu * item.cantidad;
      i := i + 1;
    }
    assert l[..i] == l;
    r := Ok(total);
  }

  /** Once a line fails after valid ones, the whole validation fails with that line's error. */
  lemma {:induction false} ValidarCorta(menus: map<int, MenuDia>, l: seq<ItemPedidoRequest>, i: int)
    requires 0 <= i < |l| && Validar(menus, l[..i]).Ok? && !LineaValida(menus, l[i])
    ensures Validar(menus, l) == Err(FalloDeLinea(menus, l[i]))
    decreases |l|
  {
    var p := l[..|l| - 1];
    if i == |l| - 1 {
      assert p == l[..i];
    } else {
      assert p[..i] == l[..i] && p[i] == l[i];
      ValidarCorta(menus, p, i);
    }
  }

  /** The exclusion loop of one line. */
  method GuardarExclusiones(db: BaseDatos, itemId: int, ingredientes: seq<int>)
    modifies db
    ensures db.Estado() == old(db.Estado()).(exclusiones := old(db.exclusiones) + ExclusionesDe(itemId, ingredientes))
  {
    var j := 0;
    while j < |ingredientes|
      invariant 0 <= j <= |ingredientes|
      invariant db.Estado() == old(db.Estado()).(exclusiones := old(db.exclusiones) + ExclusionesDe(itemId, ingredientes[..j]))
    {
      assert ingredientes[..j + 1][..j] == ingredientes[..j];
      db.exclusiones := db.exclusiones + [ItemExclusion(itemId, ingredientes[j])];
      j := j + 1;
    }
    assert ingredientes[..j] == ingredientes;
  }

  lemma PrefijosExisten(menus: map<int, MenuDia>, l: seq<ItemPedidoRequest>, i: int)
    requires 0 <= i < |l| && MenusExisten(menus, l)
    ensures MenusExisten(menus, l[..i]) && MenusExisten(menus, l[..i + 1])
    ensures l[..i + 1][..i] == l[..i] && l[..i + 1][i] == l[i]
  {
    var p := l[..i + 1];
    assert MenusExisten(menus, l[..i]) by {
      forall k | 0 <= k < i ensures l[..i][k].menuDiaId in menus { assert l[..i][k] == l[k]; }
    }
    assert MenusExisten(menus, p) by {
      forall k | 0 <= k < i + 1 ensures p[k].menuDiaId in menus { assert p[k] == l[k]; }
    }
  }

  /** One more line: one more row after the others. */
  lemma PasoItems(ts: seq<PedidoItem>, pedidoId: int, primerId: int, menus: map<int, MenuDia>, l: seq<ItemPedidoRequest>, i: int)
    requires 0 <= i < |l| && MenusExisten(menus, l) && MenusExisten(menus, l[..i]) && MenusExisten(menus, l[..i + 1])
    ensures ts + NuevosItems(pedidoId, primerId, menus, l[..i + 1])
            == (ts + NuevosItems(pedidoId, primerId, menus, l[..i]))
               + [PedidoItem(primerId + i, pedidoId, l[i].menuDiaId, l[i].cantidad, menus[l[i].menuDiaId].precioMenu)]
  {
    var p := l[..i + 1];
    assert p[..i] == l[..i] && p[i] == l[i];
    assert p[..|p| - 1] == l[..i];
    var a := NuevosItems(pedidoId, primerId, menus, l[..i]);
    var x := [PedidoItem(primerId + i, pedidoId, l[i].menuDiaId, l[i].cantidad, menus[l[i].menuDiaId].precioMenu)];
    assert NuevosItems(pedidoId, primerId, menus, p) == a + x;
    Asociativa(ts, a, x);
  }

  /** One more line: its exclusions after the others'. */
  lemma PasoExclusiones(xs: seq<ItemExclusion>, primerId: int, l: seq<ItemPedidoRequest>, i: int)
    requires 0 <= i < |l|
    ensures xs + NuevasExclusiones(primerId, l[..i + 1])
            == (xs + NuevasExclusiones(primerId, l[..i])) + ExclusionesDe(primerId + i, l[i].exclusiones)
  {
    var p := l[..i + 1];
    assert p[..i] == l[..i] && p[i] == l[i];
    assert p[..|p| - 1] == l[..i];
    var a := NuevasExclusiones(primerId, l[..i]);
    var e := ExclusionesDe(primerId + i, l[i].exclusiones);
    assert NuevasExclusiones(primerId, p) == a + e;
    Asociativa(xs, a, e);
  }

  /** One more line: its units off its menu. */
  lemma PasoStock(menus: map<int, MenuDia>, l: seq<ItemPedidoRequest>, i: int)
    requires 0 <= i < |l| && MenusExisten(menus, l) && MenusExisten(menus, l[..i]) && MenusExisten(menus, l[..i + 1])
    ensures var d := Descontar(menus, l[..i]);
      && l[i].menuDiaId in d
      && Descontar(menus, l[..i + 1])
         == d[l[i].menuDiaId := d[l[i].menuDiaId].(cantidadDisponible := d[l[i].menuDiaId].cantidadDisponible - l[i].cantidad)]
  {
    var p := l[..i + 1];
    assert p[..i] == l[..i] && p[i] == l[i];
    assert p[..|p| - 1] == l[..i];
  }

  /** One turn of the line loop: its row, its exclusions, and its units off its menu. */
  function LineaGuardada(s: Tablas, pedidoId: int, x: ItemPedidoRequest): Tablas
    requires x.menuDiaId in s.menus
  {
    var m := s.menus[x.menuDiaId];
    s.(items := s.items + [PedidoItem(s.siguienteItem, pedidoId, x.menuDiaId, x.cantidad, m.precioMenu)],
       exclusiones := s.exclusiones + ExclusionesDe(s.siguienteItem, x.exclusiones),
       menus := s.menus[x.menuDiaId := m.(cantidadDisponible := m.cantidadDisponible - x.cantidad)],
       siguienteItem := s.siguienteItem + 1)
  }

  method GuardarLinea(db: BaseDatos, pedidoId: int, item: ItemPedidoRequest)
    requires item.menuDiaId in db.menus
    modifies db
    ensures db.Estado() == LineaGuardada(old(db.Estado()), pedidoId, item)
  {
    var itemId := db.siguienteItem;
    var menu := db.menus[item.menuDiaId];
    db.items := db.items + [PedidoItem(itemId, pedidoId, item.menuDiaId, item.cantidad, menu.precioMenu)];
    db.siguienteItem := itemId + 1;
    GuardarExclusiones(db, itemId, item.exclusiones);
    db.menus := db.menus[item.menuDiaId := menu.(cantidadDisponible := menu.cantidadDisponible - item.cantidad)];
  }

  /** After `i` turns of the line loop: the first `i` lines, their exclusions and their stock are stored. */
  ghost predicate Guardadas(s: Tablas, t: Tablas, pedidoId: int, l: seq<ItemPedidoRequest>, i: int)
  {
    && 0 <= i <= |l| && MenusExisten(t.menus, l[..i])
    && s.pedidos == t.pedidos && s.usuarios == t.usuarios && s.zonas == t.zonas
    && s.siguientePedido == t.siguientePedido
    && s.items == t.items + NuevosItems(pedidoId, t.siguienteItem, t.menus, l[..i])
    && s.exclusiones == t.exclusiones + NuevasExclusiones(t.siguienteItem, l[..i])
    && s.menus == Descontar(t.menus, l[..i])
    && s.siguienteItem == t.siguienteItem + i
  }

  lemma PasoGuardado(s: Tablas, t: Tablas, pedidoId: int, l: seq<ItemPedidoRequest>, i: int)
    requires MenusExisten(t.menus, l) && i < |l| && Guardadas(s, t, pedidoId, l, i)
    ensures l[i].menuDiaId in s.menus
    ensures Guardadas(LineaGuardada(s, pedidoId, l[i]), t, pedidoId, l, i + 1)
  {
    PrefijosExisten(t.menus, l, i);
    GuardadoItems(s, t, pedidoId, l, i);
    GuardadoExclusiones(s, t, pedidoId, l, i);
    GuardadoStock(s, t, pedidoId, l, i);
  }

  lemma GuardadoItems(s: Tablas, t: Tablas, pedidoId: int, l: seq<ItemPedidoRequest>, i: int)
    requires 0 <= i < |l| && MenusExisten(t.menus, l) && MenusExisten(t.menus, l[..i]) && MenusExisten(t.menus, l[..i + 1])
    requires s.items == t.items + NuevosItems(pedidoId, t.siguienteItem, t.menus, l[..i])
    requires s.siguienteItem == t.siguienteItem + i
    requires l[i].menuDiaId in s.menus && s.menus[l[i].menuDiaId].precioMenu == t.menus[l[i].menuDiaId].precioMenu
    ensures LineaGuardada(s, pedidoId, l[i]).items == t.items + NuevosItems(pedidoId, t.siguienteItem, t.menus, l[..i + 1])
  {
    PasoItems(t.items, pedidoId, t.siguienteItem, t.menus, l, i);
  }

  lemma GuardadoExclusiones(s: Tablas, t: Tablas, pedidoId: int, l: seq<ItemPedidoRequest>, i: int)
    requires 0 <= i < |l|
    requires s.exclusiones == t.exclusiones + NuevasExclusiones(t.siguienteItem, l[..i])
    requires s.siguienteItem == t.siguienteItem + i
    requires l[i].menuDiaId in s.menus
    ensures LineaGuardada(s, pedidoId, l[i]).exclusiones == t.exclusiones + NuevasExclusiones(t.siguienteItem, l[..i + 1])
  {
    PasoExclusiones(t.exclusiones, t.siguienteItem, l, i);
  }

  lemma GuardadoStock(s: Tablas, t: Tablas, pedidoId: int, l: seq<ItemPedidoRequest>, i: int)
    requires 0 <= i < |l| && MenusExisten(t.menus, l) && MenusExisten(t.menus, l[..i]) && MenusExisten(t.menus, l[..i + 1])
    requires s.menus == Descontar(t.menus, l[..i])
    ensures l[i].menuDiaId in s.menus && s.menus[l[i].menuDiaId].precioMenu == t.menus[l[i].menuDiaId].precioMenu
    ensures LineaGuardada(s, pedidoId, l[i]).menus == Descontar(t.menus, l[..i + 1])
  {
    PasoStock(t.menus, l, i);
    LineaGuardadaMenus(s, pedidoId, l[i]);
  }

  lemma LineaGuardadaMenus(s: Tablas, pedidoId: int, x: ItemPedidoRequest)
    requires x.menuDiaId in s.menus
    ensures var m := s.menus[x.menuDiaId];
      LineaGuardada(s, pedidoId, x).menus == s.menus[x.menuDiaId := m.(cantidadDisponible := m.cantidadDisponible - x.cantidad)]
  {
  }

  /** The line loop: store the line, its exclusions, and take its units from the menu. */
  method GuardarLineas(db: BaseDatos, pedidoId: int, l: seq<ItemPedidoRequest>)
    requires MenusExisten(db.menus, l)
    modifies db
    ensures db.Estado() == old(db.Estado()).(
      items := old(db.items) + NuevosItems(pedidoId, old(db.siguienteItem), old(db.menus), l),
      exclusiones := old(db.exclusiones) + NuevasExclusiones(old(db.siguienteItem), l),
      menus := Descontar(old(db.menus), l),
      siguienteItem := old(db.siguienteItem) + |l|)
  {
    ghost var t := db.Estado();
    var i := 0;
    assert l[..0] == [];
    while i < |l|
      invariant Guardadas(db.Estado(), t, pedidoId, l, i)
    {
      PasoGuardado(db.Estado(), t, pedidoId, l, i);
      GuardarLinea(db, pedidoId, l[i]);
      i := i + 1;
    }
    assert l[..i] == l;
  }

  /** `crear_pedido`: the transaction commits first, then its events are published. */
  method CrearPedido(db: BaseDatos, g: GestorNotificaciones, ses: Sesion, req: CrearPedidoRequest,
                     sorteos: seq<seq<nat>>, ahora: int) returns (r: Result<int, Fallo>)
    requires SorteosValidos(sorteos, LongitudPorDefecto)
    requires db.Valid() && g.Valid()
    modifies db, g
    ensures var s := PedidoCreado(old(db.Estado()), ses, req, sorteos, ahora);
      && Aplicado(db, g, s, ahora)
      && (s.Err? ==> r == Err(s.error))
      && (s.Ok? ==> r == Ok(old(db.siguientePedido)))
    ensures db.Valid() && g.Valid()
  {
    ghost var t := db.Estado();
    var id := db.siguientePedido;
    var avisos := RegistrarPedido(db, ses, req, sorteos, ahora);
    if avisos.Err? {
      return Err(avisos.error);
    }
    CreadoValida(t, ses, req, sorteos, ahora);
    g.Publicar(avisos.value, ahora);
    return Ok(id);
  }

  /** The transaction of `crear_pedido`, up to `db.commit()`: it answers with the events to publish. */
  method RegistrarPedido(db: BaseDatos, ses: Sesion, req: CrearPedidoRequest, sorteos: seq<seq<nat>>, ahora: int)
    returns (r: Result<seq<Aviso>, Fallo>)
    requires SorteosValidos(sorteos, LongitudPorDefecto)
    modifies db
    ensures var s := PedidoCreado(old(db.Estado()), ses, req, sorteos, ahora);
      && (s.Err? ==> r == Err(s.error) && db.Estado() == old(db.Estado()))
      && (s.Ok? ==> r == Ok(s.value.avisos) && db.Estado() == s.value.tablas)
  {
    if !CarritoValido(req) {
      return Err(ParametroInvalido);
    }
    if req.zonaId !in db.zonas {
      return Err(ZonaNoEncontrada);
    }
    var v := ValidarLineas(db, req.items);
    if v.Err? {
      return Err(v.error);
    }
    var total := v.value;
    var token := GenerarTokenUnico(TokensDe(db.pedidos), sorteos, LongitudPorDefecto);
    if token.Err? {
      return Err(token.error);
    }
    ghost var t := db.Estado();
    var delivery := Repartidor(db.usuarios, req.zonaId);
    var id := db.siguientePedido;
    var p := PedidoInicial(ses.usuarioId, req.zonaId, req.googleMapsLink, req.direccionReferencia,
                           token.value, total, req.metodoPago, delivery, ahora);
    db.pedidos := db.pedidos[id := p];
    db.siguientePedido := id + 1;
    assert db.Estado() == t.(pedidos := t.pedidos[id := p], siguientePedido := id + 1);
    GuardarLineas(db, id, req.items);
    assert db.Estado() == Insertado(t, p, req.items);
    assert PedidoCreado(t, ses, req, sorteos, ahora) == Ok(Alta(t, ses, req, total, token.value, ahora));
    return Ok(AvisosDeAlta(id, token.value, ses.nombreCompleto, |req.items|, total, delivery, req.direccionReferencia));
  }

  /** `cancelar_pedido`. */
  method CancelarPedido(db: BaseDatos, ses: Sesion, pedidoId: int) returns (r: Result<int, Fallo>)
    requires db.Valid()
    modifies db
    ensures var s := PedidoCancelado(old(db.Estado()), ses, pedidoId);
      && (s.Err? ==> r == Err(s.error) && db.Estado() == old(db.Estado()))
      && (s.Ok? ==> r == Ok(pedidoId) && db.Estado() == s.value.tablas)
    ensures db.Valid()
  {
    ghost var t := db.Estado();
    if PedidoCancelado(t, ses, pedidoId).Ok? {
      CanceladoValida(t, ses, pedidoId);
    }
    if pedidoId !in db.pedidos {
      return Err(PedidoNoEncontrado);
    }
    var pedido := db.pedidos[pedidoId];
    if pedido.usuarioId != ses.usuarioId {
      return Err(NoEsDueno);
    }
    if pedido.estado != Pendiente {
      return Err(EstadoNoCancelable(pedido.estado));
    }
    var its := ItemsDe(db.items, pedidoId);
    db.ReponerItems(its);
    var borrados := IdsDe(its);
    db.pedidos := db.pedidos - {pedidoId};
    db.items := SinPedido(db.items, pedidoId);
    db.exclusiones := ExclusionesFuera(db.exclusiones, borrados);
    return Ok(pedidoId);
  }
}
