/**
 * The `notificar_*` helpers: each one fixes the type, the recipient role and
 * user, the title, the message and the data of the events it publishes. They
 * are modelled as the list of `crear_evento` calls they make, in order.
 */
module Publicadores {
  import opened Base
  import opened Enums
  import opened Notificaciones

  // ---------- `str(int)`, as f-strings render ids and counts ----------

  function Digito(d: nat): char
    requires d < 10
  {
    "0123456789"[d]
  }

  predicate SoloDigitos(s: string)
  {
    forall i :: 0 <= i < |s| ==> '0' <= s[i] <= '9'
  }

  /** The decimal digits of a natural number, without leading zeros. */
  function Digitos(n: nat): (s: string)
    ensures |s| >= 1 && SoloDigitos(s)
    ensures (s[0] == '0') <==> n == 0
    decreases n
  {
    if n < 10 then [Digito(n)] else Digitos(n / 10) + [Digito(n % 10)]
  }

  /** Reads back a string of decimal digits. */
  function ValorDigitos(s: string): nat
    requires SoloDigitos(s)
  {
    if s == [] then 0 else ValorDigitos(s[..|s| - 1]) * 10 + ((s[|s| - 1] as int) - ('0' as int))
  }

  lemma {:induction false} ValorDeDigitos(n: nat)
    ensures ValorDigitos(Digitos(n)) == n
    decreases n
  {
    if n >= 10 {
      ValorDeDigitos(n / 10);
      var s := Digitos(n);
      assert s[..|s| - 1] == Digitos(n / 10);
    }
  }

  /** `str(n)` for an int: a minus sign before the digits of a negative number. */
  function EnDecimal(n: int): string
  {
    if n < 0 then "-" + Digitos(-n) else Digitos(n)
  }

  // ---------- event types ----------

  const NuevoPedidoTipo: string := "NUEVO_PEDIDO"
  const CambioEstadoTipo: string := "CAMBIO_ESTADO"
  const PedidoAsignadoTipo: string := "PEDIDO_ASIGNADO"
  const PedidoListoTipo: string := "PEDIDO_LISTO"
  const EnCaminoTipo: string := "DELIVERY_EN_CAMINO"
  const CercaTipo: string := "DELIVERY_CERCA"

  /** A broadcast only has no recipient user; every other publisher addresses one. */
  predicate Difusion(a: Aviso)
  {
    a.destinatarioId.None?
  }

  /** `str(x)` of an optional string in an f-string: `None` prints as "None". */
  function TextoOpcional(s: Option<string>): string
  {
    if s.None? then "None" else s.value
  }

  function DatoOpcional(s: Option<string>): Dato
  {
    if s.None? then Nulo else Texto(s.value)
  }

  // ---------- the publishers ----------

  /** `notificar_nuevo_pedido`: the kitchen, then the administrators, both broadcast. */
  function NuevoPedido(pedidoId: int, token: string, cliente: string, itemsCount: int, totalCentimos: int): (r: seq<Aviso>)
    ensures |r| == 2 && r[0].destinatarioRol == RolCocina && r[1].destinatarioRol == RolAdmin
    ensures forall i :: 0 <= i < |r| ==> Difusion(r[i]) && r[i].tipo == NuevoPedidoTipo
    ensures r[0].data == r[1].data && "pedido_id" in r[0].data && "total" in r[0].data
    ensures r[0].data["pedido_id"] == Dato.Entero(pedidoId) && r[0].data["total"] == Importe(totalCentimos)
  {
    var data := map["pedido_id" := Dato.Entero(pedidoId), "token" := Texto(token), "cliente" := Texto(cliente),
                     "items_count" := Dato.Entero(itemsCount), "total" := Importe(totalCentimos)];
    [ Aviso(NuevoPedidoTipo, RolCocina, "Nuevo Pedido",
            "Pedido #" + EnDecimal(pedidoId) + " - " + cliente + " (" + EnDecimal(itemsCount) + " items)", data, None),
      Aviso(NuevoPedidoTipo, RolAdmin, "Nuevo Pedido", "Pedido #" + EnDecimal(pedidoId) + " de " + cliente, data, None) ]
  }

  /** The `mensajes` table of `notificar_cambio_estado`, keyed by state name. */
  function Tabla(estado: string): Option<string>
  {
    if estado == "CONFIRMADO" then Some("Tu pedido ha sido confirmado y está en preparación")
    else if estado == "EN_COCINA" then Some("Tu pedido está siendo preparado en cocina")
    else if estado == "LISTO_PARA_ENTREGA" then Some("¡Tu pedido está listo! El delivery lo recogerá pronto")
    else if estado == "EN_REPARTO" then Some("Tu pedido está en camino")
    else if estado == "ENTREGADO" then Some("¡Tu pedido ha sido entregado! ¡Buen provecho!")
    else if estado == "CANCELADO" then Some("Tu pedido ha sido cancelado")
    else None
  }

  /** `mensajes.get(nuevo_estado, f"Estado actualizado a {nuevo_estado}")`. */
  function MensajeEstado(estado: string): (m: string)
    ensures Tabla(estado).Some? ==> m == Tabla(estado).value
    ensures Tabla(estado).None? ==> m == "Estado actualizado a " + estado
  {
    match Tabla(estado)
    case Some(t) => t
    case None => "Estado actualizado a " + estado
  }

  /** The table is keyed by member names: every state but PENDIENTE has its own message. */
  lemma TablaPorNombre(e: Estado)
    ensures Tabla(Nombre(e)).Some? <==> e != Pendiente
  {
  }

  /**
   * No member value is a key of the table, so a caller passing `.value`
   * (as the kitchen does) always gets the generic message.
   */
  lemma ValorFueraDeTabla(e: Estado)
    ensures Tabla(Valor(e)).None?
    ensures MensajeEstado(Valor(e)) == "Estado actualizado a " + Valor(e)
  {
  }

  /** `notificar_cambio_estado`: one event addressed to the client under role 4. */
  function CambioEstado(pedidoId: int, token: string, nuevoEstado: string, clienteId: int): (r: seq<Aviso>)
    ensures |r| == 1 && r[0].destinatarioRol == RolCliente && r[0].destinatarioId == Some(clienteId)
    ensures r[0].tipo == CambioEstadoTipo && r[0].mensaje == MensajeEstado(nuevoEstado)
  {
    [Aviso(CambioEstadoTipo, RolCliente, "Pedido " + token, MensajeEstado(nuevoEstado),
           map["pedido_id" := Dato.Entero(pedidoId), "token" := Texto(token), "estado" := Texto(nuevoEstado)],
           Some(clienteId))]
  }

  /** `notificar_delivery_asignado`: one event addressed to the courier under role 3. */
  function DeliveryAsignado(pedidoId: int, token: string, deliveryId: int, direccion: Option<string>): (r: seq<Aviso>)
    ensures |r| == 1 && r[0].destinatarioRol == RolDelivery && r[0].destinatarioId == Some(deliveryId)
    ensures r[0].tipo == PedidoAsignadoTipo
  {
    [Aviso(PedidoAsignadoTipo, RolDelivery, "Nueva Entrega Asignada", "Pedido " + token + " - " + TextoOpcional(direccion),
           map["pedido_id" := Dato.Entero(pedidoId), "token" := Texto(token), "direccion" := DatoOpcional(direccion)],
           Some(deliveryId))]
  }

  /** `notificar_pedido_listo`: one event for a truthy courier id, nothing otherwise. */
  function PedidoListo(pedidoId: int, token: string, deliveryId: Option<int>): (r: seq<Aviso>)
    ensures |r| == (if Truthy(deliveryId) then 1 else 0)
    ensures |r| == 1 ==> r[0].destinatarioRol == RolDelivery && r[0].destinatarioId == deliveryId
                         && r[0].tipo == PedidoListoTipo
  {
    if Truthy(deliveryId) then
      [Aviso(PedidoListoTipo, RolDelivery, "Pedido Listo para Recoger", "Pedido " + token + " listo en cocina",
             map["pedido_id" := Dato.Entero(pedidoId), "token" := Texto(token)], deliveryId)]
    else []
  }

  /** `notificar_delivery_en_camino`: one event addressed to the client. */
  function DeliveryEnCamino(pedidoId: int, token: string, clienteId: int, deliveryNombre: string): (r: seq<Aviso>)
    ensures |r| == 1 && r[0].destinatarioRol == RolCliente && r[0].destinatarioId == Some(clienteId)
    ensures r[0].tipo == EnCaminoTipo
  {
    [Aviso(EnCaminoTipo, RolCliente, "Tu pedido va en camino", deliveryNombre + " está llevando tu pedido",
           map["pedido_id" := Dato.Entero(pedidoId), "token" := Texto(token), "delivery" := Texto(deliveryNombre)],
           Some(clienteId))]
  }

  /** `notificar_delivery_cerca`: one event addressed to the client. */
  function DeliveryCerca(pedidoId: int, token: string, clienteId: int, deliveryNombre: string): (r: seq<Aviso>)
    ensures |r| == 1 && r[0].destinatarioRol == RolCliente && r[0].destinatarioId == Some(clienteId)
    ensures r[0].tipo == CercaTipo
  {
    [Aviso(CercaTipo, RolCliente, "¡Tu delivery está llegando!", deliveryNombre + " está afuera con tu pedido",
           map["pedido_id" := Dato.Entero(pedidoId), "token" := Texto(token), "delivery" := Texto(deliveryNombre)],
           Some(clienteId))]
  }

  // ---------- what publishing them does to the manager ----------

  /**
   * Publishing a new order stores one event at the end of the kitchen buffer and
   * then one at the end of the administrators' buffer, and touches no user buffer.
   */
  lemma NuevoPedidoPublicado(b: Buzones, max: nat, ahora: int,
                             pedidoId: int, token: string, cliente: string, itemsCount: int, totalCentimos: int)
    requires BuzonesValidos(b, max) && max > 0
    ensures var p := PublicarTodos(b, NuevoPedido(pedidoId, token, cliente, itemsCount, totalCentimos), max, ahora);
      && p.porUsuario == b.porUsuario
      && p.contador == b.contador + 2
      && p.porRol[RolCocina] != [] && Ultimo(p.porRol[RolCocina]).eventoId == b.contador + 1
      && p.porRol[RolAdmin] != [] && Ultimo(p.porRol[RolAdmin]).eventoId == b.contador + 2
      && p.porRol[RolDelivery] == b.porRol[RolDelivery] && p.porRol[RolCliente] == b.porRol[RolCliente]
  {
    var avisos := NuevoPedido(pedidoId, token, cliente, itemsCount, totalCentimos);
    DosAvisosDifundidos(b, avisos[0], avisos[1], max, ahora);
    assert avisos == [avisos[0], avisos[1]];
  }

  /** Two broadcasts to two distinct known roles end those two buffers, in order, and nothing else. */
  lemma DosAvisosDifundidos(b: Buzones, a0: Aviso, a1: Aviso, max: nat, ahora: int)
    requires a0.destinatarioRol in b.porRol && a1.destinatarioRol in b.porRol && a0.destinatarioRol != a1.destinatarioRol
    requires Difusion(a0) && Difusion(a1) && max > 0
    ensures var p := PublicarTodos(b, [a0, a1], max, ahora);
      && p.porUsuario == b.porUsuario
      && p.porRol[a0.destinatarioRol] != [] && Ultimo(p.porRol[a0.destinatarioRol]).eventoId == b.contador + 1
      && p.porRol[a1.destinatarioRol] != [] && Ultimo(p.porRol[a1.destinatarioRol]).eventoId == b.contador + 2
      && forall q :: q in b.porRol && q != a0.destinatarioRol && q != a1.destinatarioRol ==> p.porRol[q] == b.porRol[q]
  {
    var p1 := Publicado(b, a0, max, ahora);
    PublicadoEnRol(b, a0, max, ahora);
    PublicadoSinUsuario(b, a0, max, ahora);
    var p2 := Publicado(p1, a1, max, ahora);
    PublicadoEnRol(p1, a1, max, ahora);
    PublicadoSinUsuario(p1, a1, max, ahora);
    assert [a0, a1][1..] == [a1];
    assert [a1][1..] == [];
    assert PublicarTodos(p1, [a1], max, ahora) == PublicarTodos(p2, [], max, ahora) == p2;
    assert PublicarTodos(b, [a0, a1], max, ahora) == p2;
  }

  /** An event addressed to a truthy user id is visible to that user right after it is published. */
  lemma DirigidoVisible(b: Buzones, a: Aviso, max: nat, ahora: int, desde: int)
    requires BuzonesValidos(b, max) && max > 0 && desde <= ahora
    requires a.destinatarioRol in Roles && Truthy(a.destinatarioId)
    ensures Nuevo(b, a, ahora) in Filtrar(Candidatos(PublicarTodos(b, [a], max, ahora), a.destinatarioRol, a.destinatarioId),
                                        desde, None, a.destinatarioId)
  {
    assert [a][1..] == [];
    assert PublicarTodos(b, [a], max, ahora) == Publicado(b, a, max, ahora);
    PublicadoVisible(b, a, max, ahora, a.destinatarioId, desde, None);
  }

  /** The client of an order sees its state change as soon as it is published, whichever user id it has but 0. */
  lemma CambioEstadoLlegaAlCliente(b: Buzones, max: nat, ahora: int, desde: int,
                                   pedidoId: int, token: string, nuevoEstado: string, clienteId: int)
    requires BuzonesValidos(b, max) && max > 0 && desde <= ahora && clienteId != 0
    ensures var a := CambioEstado(pedidoId, token, nuevoEstado, clienteId)[0];
      Nuevo(b, a, ahora) in Filtrar(Candidatos(PublicarTodos(b, [a], max, ahora), RolCliente, Some(clienteId)),
                                    desde, None, Some(clienteId))
  {
    DirigidoVisible(b, CambioEstado(pedidoId, token, nuevoEstado, clienteId)[0], max, ahora, desde);
  }
}
