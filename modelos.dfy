/**
 * The stored records: menus of the day, orders, order lines, line
 * exclusions and users, with the defaults a new order receives.
 * Money is in integer cents and instants are integer seconds.
 */
module Modelos {
  import opened Base
  import opened Enums

  /** The `menu_dia` row fields the order logic reads or writes. */
  datatype MenuDia = MenuDia(cantidadDisponible: int, precioMenu: int, publicado: bool, imagenUrl: string)

  /** A `pedidos` row (the position fields `latitud`/`longitud` are not modelled). */
  datatype Pedido = Pedido(
    usuarioId: int,
    zonaId: int,
    googleMapsLink: Option<string>,
    direccionReferencia: Option<string>,
    estado: Estado,
    tokenRecoger: string,
    totalPedido: int,
    metodoPago: MetodoPago,
    estaPagado: bool,
    deliveryAsignadoId: Option<int>,
    fechaPedido: int,
    fechaConfirmado: Option<int>,
    fechaListoCocina: Option<int>,
    fechaEnReparto: Option<int>,
    fechaEntrega: Option<int>)

  /** A `pedido_items` row, with its own autoincrement id. */
  datatype PedidoItem = PedidoItem(itemId: int, pedidoId: int, menuDiaId: int, cantidad: int, precioUnitario: int)

  /** An `item_exclusiones` row. */
  datatype ItemExclusion = ItemExclusion(itemId: int, ingredienteId: int)

  /** The `usuarios` row fields the order logic reads. */
  datatype Usuario = Usuario(rolId: int, nombreCompleto: string, zonaRepartoId: Option<int>)

  /** The authenticated caller (`current_user`). */
  datatype Sesion = Sesion(usuarioId: int, rolId: int, nombreCompleto: string)

  /** `token_recoger` is declared with `max_length=8`. */
  const LongitudMaximaToken: nat := 8

  predicate TokenValido(t: string)
  {
    |t| <= LongitudMaximaToken
  }

  /** No two orders share a pickup token (the column is `unique`). */
  predicate TokensUnicos(pedidos: map<int, Pedido>)
  {
    forall p, q :: p in pedidos && q in pedidos && p != q ==> pedidos[p].tokenRecoger != pedidos[q].tokenRecoger
  }

  function TokensDe(pedidos: map<int, Pedido>): (r: set<string>)
    ensures forall p :: p in pedidos ==> pedidos[p].tokenRecoger in r
    ensures forall t :: t in r ==> exists p :: p in pedidos && pedidos[p].tokenRecoger == t
  {
    set p | p in pedidos :: pedidos[p].tokenRecoger
  }

  /**
   * The order `crear_pedido` builds: the fields it passes, and the column
   * defaults for the rest.
   */
  function PedidoInicial(usuarioId: int, zonaId: int, googleMapsLink: Option<string>, direccionReferencia: Option<string>,
                       token: string, total: int, metodoPago: MetodoPago, deliveryId: Option<int>, ahora: int): (p: Pedido)
    ensures p.estado == Pendiente && !p.estaPagado
    ensures p.fechaPedido == ahora
    ensures p.fechaConfirmado.None? && p.fechaListoCocina.None? && p.fechaEnReparto.None? && p.fechaEntrega.None?
    ensures p.usuarioId == usuarioId && p.tokenRecoger == token && p.totalPedido == total
    ensures p.deliveryAsignadoId == deliveryId
  {
    Pedido(usuarioId, zonaId, googleMapsLink, direccionReferencia, Pendiente, token, total, metodoPago, false,
           deliveryId, ahora, None, None, None, None)
  }

  /** Adding an order whose token no other order holds keeps tokens unique. */
  lemma TokensUnicosAlta(pedidos: map<int, Pedido>, id: int, p: Pedido)
    requires TokensUnicos(pedidos) && id !in pedidos && p.tokenRecoger !in TokensDe(pedidos)
    ensures TokensUnicos(pedidos[id := p])
  {
  }

  /** Changing an order's other fields keeps tokens unique. */
  lemma TokensUnicosCambio(pedidos: map<int, Pedido>, id: int, p: Pedido)
    requires TokensUnicos(pedidos) && id in pedidos && p.tokenRecoger == pedidos[id].tokenRecoger
    ensures TokensUnicos(pedidos[id := p])
  {
  }

  /** Removing an order keeps tokens unique. */
  lemma TokensUnicosBaja(pedidos: map<int, Pedido>, id: int)
    requires TokensUnicos(pedidos)
    ensures TokensUnicos(pedidos - {id})
  {
  }

  /** The fields no state change touches: owner, place, token, money and creation time. */
  predicate MismosDatos(p: Pedido, q: Pedido)
  {
    && q.usuarioId == p.usuarioId && q.zonaId == p.zonaId
    && q.googleMapsLink == p.googleMapsLink && q.direccionReferencia == p.direccionReferencia
    && q.tokenRecoger == p.tokenRecoger && q.totalPedido == p.totalPedido
    && q.metodoPago == p.metodoPago && q.fechaPedido == p.fechaPedido
  }

  /** The states that carry a timestamp of their own. */
  predicate Sellado(e: Estado)
  {
    e == Confirmado || e == ListoParaEntrega || e == EnReparto || e == Entregado
  }

  /** The timestamp column of a stamped state. */
  function FechaDe(p: Pedido, e: Estado): Option<int>
    requires Sellado(e)
  {
    match e
    case Confirmado => p.fechaConfirmado
    case ListoParaEntrega => p.fechaListoCocina
    case EnReparto => p.fechaEnReparto
    case Entregado => p.fechaEntrega
  }

  /** A move to state `nuevo` at instant `ahora`: the new state's own date is stamped, then the state is set. */
  function Estampado(p: Pedido, nuevo: Estado, ahora: int): (q: Pedido)
    ensures q.estado == nuevo && MismosDatos(p, q)
    ensures q.deliveryAsignadoId == p.deliveryAsignadoId && q.estaPagado == p.estaPagado
    ensures Sellado(nuevo) ==> FechaDe(q, nuevo) == Some(ahora)
    ensures forall e :: Sellado(e) && e != nuevo ==> FechaDe(q, e) == FechaDe(p, e)
  {
    var f := match nuevo
      case Confirmado => p.(fechaConfirmado := Some(ahora))
      case ListoParaEntrega => p.(fechaListoCocina := Some(ahora))
      case EnReparto => p.(fechaEnReparto := Some(ahora))
      case Entregado => p.(fechaEntrega := Some(ahora))
      case _ => p;
    f.(estado := nuevo)
  }
}
